/**
 * The four endpoints composed end to end: token check, handler, service,
 * repository and producer, over one world. The token check
 * (internal/handlers/http/middleware.go) is reduced to its outcome: a
 * request without a valid token is answered 403 before any handler runs.
 */
module Api {
  import opened Wrappers
  import opened Domain
  import opened Gateway
  import opened Service
  import opened JsonShapes
  import opened Handler

  datatype Served = Served(world: World, reply: Reply)

  const Forbidden: Reply := Reply(StatusForbidden, NoBody)

  /** POST /companies. */
  function Create(w: World, authorized: bool, decoded: Option<CreateBody>,
                  parse: string -> Option<CompanyType>, env: Env): (r: Served)
    ensures !authorized ==> r == Served(w, Forbidden)
    ensures authorized && CreateCall(decoded, parse).Rejected? ==> r == Served(w, CreateCall(decoded, parse).reply)
    ensures r.reply.status == StatusConflict ==> r.world == w
    ensures Keyed(w.store) ==> Keyed(r.world.store)
  {
    if !authorized then Served(w, Forbidden)
    else
      match CreateCall(decoded, parse)
      case Rejected(reply) => Served(w, reply)
      case Call(d) =>
        var step := Service.Create(w, d, env);
        Served(step.world, CreateReply(step.err))
  }

  /** GET /companies/{company_name}. */
  function Get(w: World, authorized: bool, nameParam: string,
               parse: string -> Option<CompanyType>, env: Env): (r: Served)
    ensures r.world == w
    ensures !authorized ==> r.reply == Forbidden
    ensures authorized && nameParam == "" ==> r.reply == Reply(StatusNotAcceptable, NoBody)
    ensures authorized && nameParam != "" && env.fault.None? && nameParam !in w.store
            ==> r.reply == Reply(StatusConflict, ErrorJson(ErrorBody("no results")))
  {
    if !authorized then Served(w, Forbidden)
    else
      match NameCall(nameParam)
      case Rejected(reply) => Served(w, reply)
      case Call(name) =>
        var step := Service.Get(w, name, parse, env);
        Served(w, GetReply(step.value, step.err))
  }

  /** DELETE /companies/{company_name}. */
  function Delete(w: World, authorized: bool, nameParam: string, env: Env): (r: Served)
    ensures !authorized ==> r == Served(w, Forbidden)
    ensures authorized && nameParam == "" ==> r == Served(w, Reply(StatusNotAcceptable, NoBody))
    ensures authorized && nameParam != "" && env.fault.None? && nameParam !in w.store
            ==> r == Served(w, Reply(StatusConflict, ErrorJson(ErrorBody("no entries affected"))))
    ensures r.reply.status == StatusOK ==> nameParam in w.store && r.world.store == w.store - {nameParam}
    ensures Keyed(w.store) ==> Keyed(r.world.store)
  {
    if !authorized then Served(w, Forbidden)
    else
      match NameCall(nameParam)
      case Rejected(reply) => Served(w, reply)
      case Call(name) =>
        var step := Service.Delete(w, name, env);
        Served(step.world, MutationReply(step.err))
  }

  /** PATCH /companies/{company_name}. */
  function Patch(w: World, authorized: bool, nameParam: string, decoded: Option<PatchBody>,
                 parse: string -> Option<CompanyType>, env: Env): (r: Served)
    ensures !authorized ==> r == Served(w, Forbidden)
    ensures authorized && PatchCall(nameParam, decoded, parse).Rejected?
            ==> r == Served(w, PatchCall(nameParam, decoded, parse).reply)
    ensures r.reply.status != StatusOK && r.reply.status != StatusBadRequest ==> r.world == w
    ensures Keyed(w.store) ==> Keyed(r.world.store)
  {
    if !authorized then Served(w, Forbidden)
    else
      match PatchCall(nameParam, decoded, parse)
      case Rejected(reply) => Served(w, reply)
      case Call((d, name)) =>
        var step := Service.Patch(w, d, name, env);
        Served(step.world, MutationReply(step.err))
  }

  // ------------------------------------------------------------ properties

  /** The collaborators behave: no driver failure and the producer accepts. */
  predicate Calm(env: Env) {
    env.fault.None? && env.emitOk
  }

  /** A create body the handler passes to the service under the canonical parser. */
  predicate Acceptable(b: CreateBody) {
    ValidCreate(b) && b.typeName in CanonicalNames
  }

  /** Creating a new name succeeds; creating it again is a 409 that changes nothing. */
  lemma CreateTwiceConflicts(w: World, b: CreateBody, env1: Env, env2: Env)
    requires Acceptable(b) && b.name !in w.store && Calm(env1) && env2.fault.None?
    ensures var r1 := Create(w, true, Some(b), ParseCanonical, env1);
      && r1.reply == Reply(StatusOK, NoBody)
      && b.name in r1.world.store
      && var r2 := Create(r1.world, true, Some(b), ParseCanonical, env2);
         r2 == Served(r1.world, Reply(StatusConflict, ErrorJson(ErrorBody("duplicate name"))))
  {
  }

  /**
   * A created record reads back with exactly the values sent, the type
   * string included, and the id the table generated.
   */
  lemma CreateThenGet(w: World, b: CreateBody, env1: Env, env2: Env)
    requires Keyed(w.store)
    requires Acceptable(b) && b.name !in w.store && Calm(env1) && env2.fault.None?
    ensures var w1 := Create(w, true, Some(b), ParseCanonical, env1).world;
      Get(w1, true, b.name, ParseCanonical, env2).reply
      == Reply(StatusOK, RecordJson(GetBody(env1.freshId, b.name, b.description, b.employeesNumber.value,
                                            b.isRegistered, b.typeName, env1.now, env1.now)))
  {
    var ct := ParseCanonical(b.typeName).value;
    CanonicalRoundTrip(ct);
  }

  /** Zero employees is a present value: it is accepted and read back as 0. */
  lemma ZeroEmployeesReadBack(w: World, b: CreateBody, env1: Env, env2: Env)
    requires Keyed(w.store)
    requires Acceptable(b) && b.employeesNumber == Some(0) && b.name !in w.store && Calm(env1) && env2.fault.None?
    ensures var w1 := Create(w, true, Some(b), ParseCanonical, env1).world;
      var r := Get(w1, true, b.name, ParseCanonical, env2).reply;
      r.status == StatusOK && r.body.RecordJson? && r.body.record.employeesNumber == 0
  {
    CreateThenGet(w, b, env1, env2);
  }

  /** A type outside the four canonical names is 406 and writes nothing. */
  lemma UnknownTypeRejected(w: World, b: CreateBody, env: Env)
    requires ValidCreate(b) && b.typeName !in CanonicalNames
    ensures Create(w, true, Some(b), ParseCanonical, env) == Served(w, Reply(StatusNotAcceptable, NoBody))
  {
  }

  /**
   * A failed event hand-off after a successful insert is answered 406,
   * yet the row stays committed and no event is logged.
   */
  lemma EmitFailureStillCommits(w: World, b: CreateBody, env: Env)
    requires Acceptable(b) && b.name !in w.store && env.fault.None? && !env.emitOk
    ensures var r := Create(w, true, Some(b), ParseCanonical, env);
      r.reply == Reply(StatusNotAcceptable, NoBody) && b.name in r.world.store && r.world.events == w.events
  {
  }

  /** The empty patch is answered 400 (the builder's error), with no write and no event. */
  lemma EmptyPatchRejected(w: World, name: string, env: Env)
    requires name != ""
    ensures Patch(w, true, name, Some(PatchBody("", None, None, None, None)), ParseCanonical, env)
            == Served(w, Reply(StatusBadRequest, NoBody))
  {
  }

  /**
   * Patching only the description changes the description, refreshes
   * `updated_at` and keeps every other attribute; the event names the nil
   * id, because the handler never sets the patch record's id.
   */
  lemma PatchDescriptionOnly(w: World, name: string, desc: string, env: Env)
    requires Keyed(w.store) && name in w.store && name != "" && Calm(env)
    ensures var r := Patch(w, true, name, Some(PatchBody("", Some(desc), None, None, None)), ParseCanonical, env);
      && r.reply == Reply(StatusOK, NoBody)
      && r.world.store == w.store[name := w.store[name].(description := desc, updatedAt := env.now)]
      && r.world.events == w.events + [PatchedMessage(NilUuid)]
  {
    var d := EmptyCompany.(description := Some(desc));
    assert PatchToDomain(PatchBody("", Some(desc), None, None, None), ParseCanonical) == Some(d);
    assert PatchCall(name, Some(PatchBody("", Some(desc), None, None, None)), ParseCanonical) == Call((d, name));
    assert PatchByName(w.store, d, name, env.now, env.fault).err.None?;
    var row := Merged(w.store[name], d, env.now);
    assert row == w.store[name].(description := desc, updatedAt := env.now);
    assert (w.store - {name})[name := row] == w.store[name := row];
  }

  /**
   * Patching only the name re-keys the row: the new name holds the old
   * values (but the name and `updated_at`), and the old name is gone.
   */
  lemma RenameKeepsOtherFields(w: World, oldName: string, newName: string, env: Env)
    requires Keyed(w.store) && oldName in w.store && oldName != "" && Calm(env)
    requires newName != "" && newName !in w.store
    ensures var r := Patch(w, true, oldName, Some(PatchBody(newName, None, None, None, None)), ParseCanonical, env);
      && r.reply == Reply(StatusOK, NoBody)
      && oldName !in r.world.store
      && newName in r.world.store
      && r.world.store[newName] == w.store[oldName].(name := newName, updatedAt := env.now)
  {
    var d := EmptyCompany.(name := newName);
    assert PatchToDomain(PatchBody(newName, None, None, None, None), ParseCanonical) == Some(d);
    assert PatchCall(oldName, Some(PatchBody(newName, None, None, None, None)), ParseCanonical) == Call((d, oldName));
    assert Merged(w.store[oldName], d, env.now).name == newName;
  }

  /** Renaming onto a name another row holds violates the unique constraint: 400, nothing changes. */
  lemma RenameOntoTakenName(w: World, oldName: string, newName: string, env: Env)
    requires Keyed(w.store) && oldName in w.store && newName in w.store
    requires oldName != newName && oldName != "" && newName != "" && Calm(env)
    ensures Patch(w, true, oldName, Some(PatchBody(newName, None, None, None, None)), ParseCanonical, env)
            == Served(w, Reply(StatusBadRequest, NoBody))
  {
    var d := EmptyCompany.(name := newName);
    assert PatchToDomain(PatchBody(newName, None, None, None, None), ParseCanonical) == Some(d);
    assert PatchCall(oldName, Some(PatchBody(newName, None, None, None, None)), ParseCanonical) == Call((d, oldName));
    assert Merged(w.store[oldName], d, env.now).name == newName;
  }

  /** Patching a name no row holds is a 409 that changes nothing. */
  lemma PatchMissingName(w: World, name: string, newName: string, env: Env)
    requires name != "" && name !in w.store && newName != "" && env.fault.None?
    ensures Patch(w, true, name, Some(PatchBody(newName, None, None, None, None)), ParseCanonical, env)
            == Served(w, Reply(StatusConflict, ErrorJson(ErrorBody("no entries affected"))))
  {
    var d := EmptyCompany.(name := newName);
    assert PatchToDomain(PatchBody(newName, None, None, None, None), ParseCanonical) == Some(d);
    assert PatchCall(name, Some(PatchBody(newName, None, None, None, None)), ParseCanonical) == Call((d, name));
  }

  /** Deleting succeeds once; afterwards delete and get both answer 409. */
  lemma DeleteThenGone(w: World, name: string, env1: Env, env2: Env, env3: Env)
    requires name in w.store && name != "" && Calm(env1) && env2.fault.None? && env3.fault.None?
    ensures var r1 := Delete(w, true, name, env1);
      && r1.reply == Reply(StatusOK, NoBody)
      && r1.world.events == w.events + [DeletedMessage(name)]
      && Delete(r1.world, true, name, env2).reply.status == StatusConflict
      && Get(r1.world, true, name, ParseCanonical, env3).reply.status == StatusConflict
  {
  }

  /**
   * The whole life of one record: create, read, patch the type, read,
   * delete, read, starting from an empty table.
   */
  lemma AcmeScenario()
    ensures
      var calm := Env(1, "0b7d8a4e-6c51-4f0e-9a53-3d2f2b1c9e10", None, true);
      var later := calm.(now := 2);
      var w0 := World(map[], []);
      var created := Create(w0, true, Some(CreateBody("Acme", "", Some(2), true, "NonProfit")), ParseCanonical, calm);
      var read1 := Get(created.world, true, "Acme", ParseCanonical, calm);
      var patched := Patch(created.world, true, "Acme", Some(PatchBody("", None, None, None, Some("Cooperative"))),
                           ParseCanonical, later);
      var read2 := Get(patched.world, true, "Acme", ParseCanonical, later);
      var deleted := Delete(patched.world, true, "Acme", later);
      var read3 := Get(deleted.world, true, "Acme", ParseCanonical, later);
      && created.reply.status == StatusOK
      && read1.reply.status == StatusOK && read1.reply.body.RecordJson?
      && read1.reply.body.record.typeName == "NonProfit" && read1.reply.body.record.employeesNumber == 2
      && patched.reply.status == StatusOK
      && read2.reply.status == StatusOK && read2.reply.body.RecordJson?
      && read2.reply.body.record.typeName == "Cooperative" && read2.reply.body.record.employeesNumber == 2
      && read2.reply.body.record.updatedAt == 2
      && deleted.reply.status == StatusOK
      && read3.reply.status == StatusConflict
  {
    var calm := Env(1, "0b7d8a4e-6c51-4f0e-9a53-3d2f2b1c9e10", None, true);
    var later := calm.(now := 2);
    var b := CreateBody("Acme", "", Some(2), true, "NonProfit");
    var w0 := World(map[], []);
    CreateThenGet(w0, b, calm, calm);
    var w1 := Create(w0, true, Some(b), ParseCanonical, calm).world;
    var row := w1.store["Acme"];
    assert row.companyType == NonProfit;
    var d := EmptyCompany.(companyType := Some(Cooperative));
    assert PatchToDomain(PatchBody("", None, None, None, Some("Cooperative")), ParseCanonical) == Some(d);
    assert PatchCall("Acme", Some(PatchBody("", None, None, None, Some("Cooperative"))), ParseCanonical)
           == Call((d, "Acme"));
    var w2 := Patch(w1, true, "Acme", Some(PatchBody("", None, None, None, Some("Cooperative"))), ParseCanonical, later).world;
    assert w2.store == map["Acme" := row.(companyType := Cooperative, updatedAt := 2)];
    CanonicalRoundTrip(Cooperative);
  }
}
