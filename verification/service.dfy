/**
 * The service (internal/services/company.go): each mutation calls the
 * repository first and hands one event to the producer only after the
 * repository succeeded. A failed hand-off is returned to the caller even
 * though the row is already committed; nothing is retried or rolled back.
 */
module Service {
  import opened Wrappers
  import opened Domain
  import opened Errors
  import opened Gateway

  /** The table and the log of events the producer accepted. */
  datatype World = World(store: Store, events: seq<string>)

  /**
   * What the collaborators of one call do: the clock reading, the id the
   * table generates on insert, the driver failure the statement meets (if
   * any) and whether the producer accepts the event.
   */
  datatype Env = Env(now: Time, freshId: Uuid, fault: Option<DriverError>, emitOk: bool)

  /**
   * A service return: the world afterwards, the Go `(value, error)` pair,
   * and the messages handed to `ProduceEvent` during the call.
   */
  datatype Step<T> = Step(world: World, value: T, err: Option<Error>, sent: seq<string>)

  function CreatedMessage(id: Uuid): string {
    "New company created, with ID: " + id
  }

  /** The delete event, which reuses the creation wording of the source. */
  function DeletedMessage(name: string): string {
    "New company created, with name: " + name
  }

  function PatchedMessage(id: Uuid): string {
    "Company entry patched, with ID: " + id
  }

  /** `ProduceEvent`: the producer either accepts the message into the log or fails. */
  function Emit(events: seq<string>, msg: string, ok: bool): (seq<string>, Option<Error>)
  {
    if ok then (events + [msg], None) else (events, Some(ProduceFailed))
  }

  /** `Create`: insert, then announce the new id. */
  function Create(w: World, d: Company, env: Env): (r: Step<Uuid>)
    requires Populated(d)
    ensures var ins := Insert(w.store, d, env.now, env.freshId, env.fault);
      r.world.store == ins.store
      && (ins.err.Some? ==> r.err == ins.err && r.sent == [] && r.world == w && r.value == NilUuid)
      && (ins.err.None? ==> r.sent == [CreatedMessage(ins.value)])
    ensures r.err.None? <==> env.fault.None? && d.name !in w.store && env.emitOk
    ensures r.err.None? ==> r.value == env.freshId && r.world.events == w.events + r.sent
    ensures var ins := Insert(w.store, d, env.now, env.freshId, env.fault);
      ins.err.None? && !env.emitOk ==> r.err == Some(ProduceFailed) && r.world.events == w.events
    ensures r.err == Some(ProduceFailed) ==> r.value == NilUuid && d.name in r.world.store && r.world.events == w.events
    ensures r.err.Some? ==> r.value == NilUuid
  {
    var ins := Insert(w.store, d, env.now, env.freshId, env.fault);
    if ins.err.Some? then Step(w, NilUuid, ins.err, [])
    else
      var msg := CreatedMessage(ins.value);
      var (events, e) := Emit(w.events, msg, env.emitOk);
      if e.Some? then Step(World(ins.store, events), NilUuid, e, [msg])
      else Step(World(ins.store, events), ins.value, None, [msg])
  }

  /** `Delete`: delete the row, then announce the name. */
  function Delete(w: World, name: string, env: Env): (r: Step<()>)
    ensures var del := DeleteByName(w.store, name, env.fault);
      r.world.store == del.store
      && (del.err.Some? ==> r.err == del.err && r.sent == [] && r.world == w)
      && (del.err.None? ==> r.sent == [DeletedMessage(name)] && name !in r.world.store)
    ensures r.err.None? <==> env.fault.None? && name in w.store && env.emitOk
    ensures r.err.None? ==> r.world.events == w.events + r.sent
    ensures var del := DeleteByName(w.store, name, env.fault);
      del.err.None? && !env.emitOk ==> r.err == Some(ProduceFailed) && r.world.events == w.events
    ensures r.err == Some(ProduceFailed) ==> name in w.store && name !in r.world.store && r.world.events == w.events
  {
    var del := DeleteByName(w.store, name, env.fault);
    if del.err.Some? then Step(w, (), del.err, [])
    else
      var msg := DeletedMessage(name);
      var (events, e) := Emit(w.events, msg, env.emitOk);
      Step(World(del.store, events), (), e, [msg])
  }

  /** `Get`: the repository's answer passed through; no event, nothing changes. */
  function Get(w: World, name: string, parse: string -> Option<CompanyType>, env: Env): (r: Step<Company>)
    ensures r.world == w && r.sent == []
    ensures r.err == GetByName(w.store, name, parse, env.fault).err
    ensures r.value == GetByName(w.store, name, parse, env.fault).value
    ensures r.err.Some? ==> r.value == EmptyCompany
    ensures r.err.None? ==> name in w.store && Populated(r.value) && r.value.id == w.store[name].id
    ensures Keyed(w.store) && r.err.None? ==> r.value.name == name
  {
    var a := GetByName(w.store, name, parse, env.fault);
    if a.err.Some? then Step(w, EmptyCompany, a.err, [])
    else Step(w, a.value, None, [])
  }

  /** `Patch`: patch the row found under `currentName`, then announce the patch record's id. */
  function Patch(w: World, d: Company, currentName: string, env: Env): (r: Step<()>)
    ensures var p := PatchByName(w.store, d, currentName, env.now, env.fault);
      r.world.store == p.store
      && (p.err.Some? ==> r.err == p.err && r.sent == [] && r.world == w)
      && (p.err.None? ==> r.sent == [PatchedMessage(d.id)])
    ensures var p := PatchByName(w.store, d, currentName, env.now, env.fault);
      r.err.None? <==> p.err.None? && env.emitOk
    ensures var p := PatchByName(w.store, d, currentName, env.now, env.fault);
      p.err.None? && !env.emitOk ==> r.err == Some(ProduceFailed) && r.world.events == w.events
    ensures r.err.None? ==> r.world.events == w.events + r.sent
    ensures r.err == Some(ProduceFailed) ==>
      && PatchByName(w.store, d, currentName, env.now, env.fault).err.None?
      && currentName in w.store && r.world.events == w.events
  {
    var p := PatchByName(w.store, d, currentName, env.now, env.fault);
    if p.err.Some? then Step(w, (), p.err, [])
    else
      var msg := PatchedMessage(d.id);
      var (events, e) := Emit(w.events, msg, env.emitOk);
      Step(World(p.store, events), (), e, [msg])
  }
}
