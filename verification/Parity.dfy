/** The two stores cannot be told apart through the executor. */
module Parity {
  import opened GuardModel
  import opened GuardStores
  import opened GuardRuns
  import opened Executor

  /** Serves the calls in order, each on an executor wired for its run. */
  method Serve(store: GuardStore, world: World, p: Policy, calls: seq<Call>) returns (replies: seq<Reply>)
    requires store.Valid() && store.Object() != world
    requires FreshIds(System(store.Model(), world.performed), p, calls)
    modifies store.Object(), world
    ensures store.Valid()
    ensures System(store.Model(), world.performed) == RunAll(old(System(store.Model(), world.performed)), p, calls)
    ensures replies == Replies(old(System(store.Model(), world.performed)), p, calls)
  {
    ghost var start := System(store.Model(), world.performed);
    replies := [];
    assert calls[..0] == [];
    for i := 0 to |calls|
      invariant store.Valid()
      invariant System(store.Model(), world.performed) == RunAll(start, p, calls[..i])
      invariant replies == Replies(start, p, calls[..i])
    {
      NextCallIsFresh(start, p, calls, i);
      RunSnoc(start, p, calls[..i], calls[i]);
      assert calls[..i + 1] == calls[..i] + [calls[i]];
      var reply := ServeOne(store, world, p, calls[i]);
      replies := replies + [reply];
    }
    assert calls[..|calls|] == calls;
  }

  method ServeOne(store: GuardStore, world: World, p: Policy, c: Call) returns (reply: Reply)
    requires store.Valid() && store.Object() != world && Fresh(store.Model(), c)
    modifies store.Object(), world
    ensures store.Valid()
    ensures System(store.Model(), world.performed) == CallOn(old(System(store.Model(), world.performed)), p, c)
    ensures reply == ReplyTo(old(store.Model()), p, c)
  {
    var executor := new GuardedExecutor(c.run, store, p, world);
    match c
    case Execute(_, registered, a, outcome, minted) =>
      executor.handlers := registered;
      reply := executor.Execute(a, outcome, minted);
    case Approve(_, registered, id, outcome, minted) =>
      executor.handlers := registered;
      reply := executor.Approve(id, outcome, minted);
    case Reject(_, id) =>
      reply := executor.RejectApproval(id);
  }

  /** Any calls, over any interleaving of runs, get from both stores the replies of the abstract run, and
      leave its stored results, approvals, counts, spend, breakers, audit log and outside effects. */
  method BothStores(p: Policy, calls: seq<Call>)
    returns (fromMemory: seq<Reply>, fromSql: seq<Reply>, memory: GuardStore, sql: GuardStore, w1: World, w2: World)
    requires FreshIds(START, p, calls)
    ensures memory.Memory? && sql.Sql?
    ensures fromMemory == Replies(START, p, calls) == fromSql
    ensures System(memory.Model(), w1.performed) == RunAll(START, p, calls) == System(sql.Model(), w2.performed)
  {
    var m := new InMemoryGuardStore();
    memory := Memory(m);
    w1 := new World();
    fromMemory := Serve(memory, w1, p, calls);
    var s := new SqlGuardStore();
    sql := Sql(s);
    w2 := new World();
    fromSql := Serve(sql, w2, p, calls);
  }

  /** Where the stores do differ: the dictionary's write and the table's leave the same store exactly when
      the key was unused or already held that very record. */
  lemma PutAgreesExactly(st: Store, run: RunId, key: Key, record: IdemRecord)
    ensures ApplyToStore(st, Put(run, key, record)) == PutKeepingFirst(st, run, key, record)
       <==> ((run, key) in st.results ==> st.results[(run, key)] == record)
  {
    if (run, key) in st.results {
      if st.results[(run, key)] == record {
        assert st.results[(run, key) := record] == st.results;
      } else {
        assert ApplyToStore(st, Put(run, key, record)).results[(run, key)] == record;
      }
    }
  }
}
