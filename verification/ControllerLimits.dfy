/** Concrete interleavings that mark where the controller's guarantees end. */
module ControllerLimits {
  import opened Text
  import opened Controller
  import opened ControllerInvariant
  import opened StaleContinuations

  ghost predicate Reaches(events: seq<Event>, c: Control)
  {
    After(Started(), events) == c
  }

  lemma AfterSnoc(c: Control, events: seq<Event>, ev: Event)
    ensures After(c, events + [ev]) == Next(After(c, events), ev)
    decreases |events|
  {
    if events == [] {
      assert [] + [ev] == [ev];
      assert [ev][1..] == [];
    } else {
      assert (events + [ev])[1..] == events[1..] + [ev];
      AfterSnoc(Next(c, events[0]), events[1..], ev);
    }
  }

  lemma OneMore(events: seq<Event>, c: Control, ev: Event, c': Control)
    requires Reaches(events, c) && Next(c, ev) == c'
    ensures Reaches(events + [ev], c')
  {
    AfterSnoc(Started(), events, ev);
  }

  const IDLE := Node(false, 0, 0)

  function Plain(address: string): RegisterRequest
  {
    RegisterRequest(address, "backup", 0, false, "")
  }

  function Unprotected(generation: int, candidate: Option<string>, attempted: set<string>): Option<Assignment>
  {
    Some(Assignment("p", 1, Reprotecting, None, candidate, generation, {}, attempted))
  }

  lemma OnlyChoice(s: set<string>, k: string)
    requires s == {k}
    ensures First(s) == Some(k)
  {
  }

  /** Another idle replica registers while a replacement may be sought. */
  lemma Joins(c: Control, k: string)
    requires c.assignment.Some? && c.assignment.value.status == Reprotecting && c.assignment.value.candidate.None?
    requires c.assignment.value.epoch == c.lastEpoch >= 1
    requires Strip(k) == k && k != "" && k != c.assignment.value.primary && k !in c.assignment.value.attempted
    ensures Register(c, Plain(k)).0 == c.(nodes := c.nodes[k := IDLE])
  {
    assert c.assignment.value.attempted - {k} == c.assignment.value.attempted;
  }

  lemma Picks(c: Control, k: string)
    requires c.assignment.Some? && c.assignment.value.status == Reprotecting && c.assignment.value.candidate.None?
    requires Replacements(c.nodes, c.assignment.value) == {k} && c.nodes[k] == IDLE
    ensures var a := c.assignment.value;
      PickReplacement(c, a.primary, a.epoch) ==
        (c.(assignment := Some(a.(candidate := Some(k), generation := a.generation + 1,
                                  attempted := a.attempted + {k}))),
         Some(Ticket(a.primary, a.epoch, Reprotecting, k, a.generation + 1)))
  {
    OnlyChoice(Replacements(c.nodes, c.assignment.value), k);
    assert c.nodes[k := IDLE] == c.nodes;
  }

  function Attempt(backup: string, generation: int): Ticket
  {
    Ticket("p", 1, Reprotecting, backup, generation)
  }

  // ---------------------------------------------------------------- the common beginning

  function Paired(b: Node, generation: int, candidate: Option<string>, attempted: set<string>): Control
  {
    Control(map["p" := IDLE, "b" := b], Unprotected(generation, candidate, attempted), 1, false)
  }

  function Opening(): seq<Event>
  {
    [] + [Registered(Plain("p"))] + [Registered(Plain("b"))]
  }

  lemma Opens()
    ensures Reaches(Opening(), Paired(IDLE, 0, None, {}))
  {
    assert Strip("p") == "p" && Strip("b") == "b" && Strip("") == "";
    var first := Control(map["p" := IDLE], Unprotected(0, None, {}), 1, false);
    assert map[]["p" := IDLE] == map["p" := IDLE];
    OneMore([], Started(), Registered(Plain("p")), first);
    assert map["p" := IDLE]["b" := IDLE] == map["p" := IDLE, "b" := IDLE];
    Joins(first, "b");
    OneMore([] + [Registered(Plain("p"))], first, Registered(Plain("b")), Paired(IDLE, 0, None, {}));
  }

  lemma PicksOnlyOther(generation: int)
    ensures PickReplacement(Paired(IDLE, generation, None, {}), "p", 1) ==
            (Paired(IDLE, generation + 1, Some("b"), {"b"}), Some(Attempt("b", generation + 1)))
  {
    var c := Paired(IDLE, generation, None, {});
    assert Replacements(c.nodes, c.assignment.value) == {"b"};
    Picks(c, "b");
    assert {} + {"b"} == {"b"};
  }

  function FirstAttempt(): seq<Event>
  {
    Opening() + [ReplacementSought("p", 1)] + [SyncReported("b", "p", 1)]
  }

  lemma Attempts()
    ensures Reaches(FirstAttempt(), Paired(Node(true, 1, 0), 1, Some("b"), {"b"}))
    ensures ReportSync(Paired(IDLE, 1, Some("b"), {"b"}), "b", "p", 1).1 == Some(Attempt("b", 1))
  {
    assert Strip("p") == "p" && Strip("b") == "b";
    Opens();
    PicksOnlyOther(0);
    OneMore(Opening(), Paired(IDLE, 0, None, {}), ReplacementSought("p", 1), Paired(IDLE, 1, Some("b"), {"b"}));
    OneMore(Opening() + [ReplacementSought("p", 1)], Paired(IDLE, 1, Some("b"), {"b"}), SyncReported("b", "p", 1),
            Paired(Node(true, 1, 0), 1, Some("b"), {"b"}));
  }

  // ---------------------------------------------------------------- a generation used twice

  function Recovery(): RegisterRequest
  {
    RegisterRequest("p", "primary", 1, true, "b")
  }

  function Vacant(b: Node): Control
  {
    Control(map["b" := b], None, 1, false)
  }

  lemma PrimaryLost()
    ensures Evict(Paired(Node(true, 1, 0), 1, Some("b"), {"b"}), "p").0 == Vacant(Node(true, 1, 0))
  {
  }

  lemma BackupReturns()
    ensures Register(Vacant(Node(true, 1, 0)), Plain("b")).0 == Vacant(IDLE)
  {
  }

  lemma PrimaryReturns()
    ensures Register(Vacant(IDLE), Recovery()).0 == Paired(IDLE, 0, None, {})
  {
  }

  /** The primary is evicted, both replicas register again, and the assignment is recovered at its old epoch. */
  lemma Recovers()
    ensures Reaches(FirstAttempt() + [Evicted("p")] + [Registered(Plain("b"))] + [Registered(Recovery())],
                    Paired(IDLE, 0, None, {}))
  {
    Attempts();
    PrimaryLost();
    BackupReturns();
    PrimaryReturns();
    OneMore(FirstAttempt(), Paired(Node(true, 1, 0), 1, Some("b"), {"b"}), Evicted("p"), Vacant(Node(true, 1, 0)));
    OneMore(FirstAttempt() + [Evicted("p")], Vacant(Node(true, 1, 0)), Registered(Plain("b")), Vacant(IDLE));
    OneMore(FirstAttempt() + [Evicted("p")] + [Registered(Plain("b"))], Vacant(IDLE), Registered(Recovery()),
        Paired(IDLE, 0, None, {}));
  }

  /**
   * An assignment that is dropped and recovered at the same epoch counts its generations from zero again: the
   * completion of the first attempt is then taken for that of the second, whose replica reported nothing yet.
   */
  lemma RecoveredAssignmentReusesGeneration() returns (c: Control)
    ensures Reaches(FirstAttempt() + [Evicted("p")] + [Registered(Plain("b"))] + [Registered(Recovery())]
                    + [ReplacementSought("p", 1)], c)
    ensures !Unbroken(Next(Paired(Node(true, 1, 0), 1, Some("b"), {"b"}), Evicted("p")), 1)
    ensures Activate(c, Attempt("b", 1)).1 && "b" in c.nodes && !c.nodes["b"].synced
  {
    Recovers();
    PrimaryLost();
    PicksOnlyOther(0);
    c := Paired(IDLE, 1, Some("b"), {"b"});
    OneMore(FirstAttempt() + [Evicted("p")] + [Registered(Plain("b"))] + [Registered(Recovery())],
            Paired(IDLE, 0, None, {}),
            ReplacementSought("p", 1), c);
  }

  // ---------------------------------------------------------------- a superseded replica stays electable

  function Trio(b: Node, c: Node, assignment: Option<Assignment>): Control
  {
    Control(map["p" := IDLE, "b" := b, "c" := c], assignment, 1, false)
  }

  function Superseding(): seq<Event>
  {
    FirstAttempt() + [DispatchLost(Attempt("b", 1))] + [Registered(Plain("c"))] + [ReplacementSought("p", 1)]
    + [SyncReported("c", "p", 1)] + [Activated(Attempt("c", 2))]
  }

  lemma PicksThird()
    ensures PickReplacement(Trio(Node(true, 1, 0), IDLE, Unprotected(1, None, {"b"})), "p", 1) ==
            (Trio(Node(true, 1, 0), IDLE, Unprotected(2, Some("c"), {"b", "c"})), Some(Attempt("c", 2)))
  {
    var t := Trio(Node(true, 1, 0), IDLE, Unprotected(1, None, {"b"}));
    assert Replacements(t.nodes, t.assignment.value) == {"c"};
    Picks(t, "c");
    assert {"b"} + {"c"} == {"b", "c"};
  }

  function Protecting(): Control
  {
    Trio(Node(true, 1, 0), Node(true, 1, 0), Some(Assignment("p", 1, Ready, Some("c"), None, 2, {}, {"b", "c"})))
  }

  lemma Supersedes()
    ensures Reaches(Superseding(), Protecting())
  {
    assert Strip("p") == "p" && Strip("b") == "b" && Strip("c") == "c" && Strip("") == "";
    var synced := Node(true, 1, 0);
    Attempts();
    PicksThird();
    var e1 := FirstAttempt() + [DispatchLost(Attempt("b", 1))];
    OneMore(FirstAttempt(), Paired(synced, 1, Some("b"), {"b"}), DispatchLost(Attempt("b", 1)),
        Paired(synced, 1, None, {"b"}));
    assert map["p" := IDLE, "b" := synced]["c" := IDLE] == map["p" := IDLE, "b" := synced, "c" := IDLE];
    Joins(Paired(synced, 1, None, {"b"}), "c");
    OneMore(e1, Paired(synced, 1, None, {"b"}), Registered(Plain("c")),
        Trio(synced, IDLE, Unprotected(1, None, {"b"})));
    var e2 := e1 + [Registered(Plain("c"))];
    OneMore(e2, Trio(synced, IDLE, Unprotected(1, None, {"b"})), ReplacementSought("p", 1),
        Trio(synced, IDLE, Unprotected(2, Some("c"), {"b", "c"})));
    Reported(e2 + [ReplacementSought("p", 1)]);
  }

  lemma Reported(events: seq<Event>)
    requires Reaches(events, Trio(Node(true, 1, 0), IDLE, Unprotected(2, Some("c"), {"b", "c"})))
    ensures Reaches(events + [SyncReported("c", "p", 1)] + [Activated(Attempt("c", 2))], Protecting())
  {
    assert Strip("p") == "p" && Strip("c") == "c";
    var synced := Node(true, 1, 0);
    var waiting := Trio(synced, synced, Unprotected(2, Some("c"), {"b", "c"}));
    OneMore(events, Trio(synced, IDLE, Unprotected(2, Some("c"), {"b", "c"})), SyncReported("c", "p", 1), waiting);
    OneMore(events + [SyncReported("c", "p", 1)], waiting, Activated(Attempt("c", 2)), Protecting());
  }

  function Unbacked(): Control
  {
    Control(map["p" := IDLE, "b" := Node(true, 1, 0)], Unprotected(2, None, {}), 1, false)
  }

  lemma PairLost()
    ensures Evict(Protecting(), "c").0 == Unbacked()
    ensures Evict(Unbacked(), "p").0 == Vacant(Node(true, 1, 0))
  {
  }

  lemma SurvivorElected()
    ensures Elect(Vacant(Node(true, 1, 0)), None).1 == Some(Worker("b", 2))
  {
    assert Electable(Vacant(Node(true, 1, 0))) == {"b"};
    OnlyChoice(Electable(Vacant(Node(true, 1, 0))), "b");
  }

  lemma LosesPair(events: seq<Event>)
    requires Reaches(events, Protecting())
    ensures Reaches(events + [Evicted("c")] + [Evicted("p")], Vacant(Node(true, 1, 0)))
  {
    PairLost();
    OneMore(events, Protecting(), Evicted("c"), Unbacked());
    OneMore(events + [Evicted("c")], Unbacked(), Evicted("p"), Vacant(Node(true, 1, 0)));
  }

  /**
   * A replica whose synchronization was reported but whose dispatch then failed keeps its mark. When the active
   * backup and then the primary are lost, the unrestricted election elects it, although it backed nothing up.
   */
  lemma SupersededReplicaIsElected()
    ensures Reaches(Superseding(), Protecting()) && Protecting().assignment.value.backup == Some("c")
    ensures Reaches(Superseding() + [Evicted("c")] + [Evicted("p")], Vacant(Node(true, 1, 0)))
    ensures Elect(Vacant(Node(true, 1, 0)), None).1 == Some(Worker("b", 2))
  {
    Supersedes();
    LosesPair(Superseding());
    SurvivorElected();
  }

  // ---------------------------------------------------------------- an older attempt abandons a promotion

  function Candidacy(nodes: Nodes, backup: Option<string>, attempted: set<string>): Control
  {
    Control(nodes, Some(Assignment("p", 2, Promoting, backup, None, 0, {"p", "b", "c"}, attempted)), 2, true)
  }

  /** A promotion whose first backup was given up and whose second one is being synchronized. */
  function SecondBackup(): Control
  {
    Candidacy(map["p" := IDLE, "c" := IDLE], Some("c"), {"b", "c"})
  }

  function Promotion(): seq<Event>
  {
    [] + [Registered(Plain("q"))] + [Registered(Plain("p"))] + [Registered(Plain("b"))] + [Registered(Plain("c"))]
    + [Evicted("q")] + [Elected(Some({"p"}))] + [BackupSought("p", 2)] + [SyncReported("b", "p", 2)]
    + [SyncFailed("p", 2, "b")] + [BackupSought("p", 2)]
  }

  function Alone(nodes: Nodes): Control
  {
    Control(nodes, Some(Assignment("q", 1, Reprotecting, None, None, 0, {}, {})), 1, false)
  }

  lemma Gathered() returns (events: seq<Event>)
    ensures events == [] + [Registered(Plain("q"))] + [Registered(Plain("p"))] + [Registered(Plain("b"))]
        + [Registered(Plain("c"))]
    ensures Reaches(events, Alone(map["q" := IDLE, "p" := IDLE, "b" := IDLE, "c" := IDLE]))
  {
    assert Strip("q") == "q" && Strip("p") == "p" && Strip("b") == "b" && Strip("c") == "c" && Strip("") == "";
    assert map[]["q" := IDLE] == map["q" := IDLE];
    OneMore([], Started(), Registered(Plain("q")), Alone(map["q" := IDLE]));
    events := [] + [Registered(Plain("q"))];
    assert map["q" := IDLE]["p" := IDLE] == map["q" := IDLE, "p" := IDLE];
    Joins(Alone(map["q" := IDLE]), "p");
    OneMore(events, Alone(map["q" := IDLE]), Registered(Plain("p")), Alone(map["q" := IDLE, "p" := IDLE]));
    events := events + [Registered(Plain("p"))];
    assert map["q" := IDLE, "p" := IDLE]["b" := IDLE] == map["q" := IDLE, "p" := IDLE, "b" := IDLE];
    Joins(Alone(map["q" := IDLE, "p" := IDLE]), "b");
    OneMore(events, Alone(map["q" := IDLE, "p" := IDLE]), Registered(Plain("b")),
        Alone(map["q" := IDLE, "p" := IDLE, "b" := IDLE]));
    events := events + [Registered(Plain("b"))];
    assert map["q" := IDLE, "p" := IDLE, "b" := IDLE]["c" := IDLE] ==
        map["q" := IDLE, "p" := IDLE, "b" := IDLE, "c" := IDLE];
    Joins(Alone(map["q" := IDLE, "p" := IDLE, "b" := IDLE]), "c");
    OneMore(events, Alone(map["q" := IDLE, "p" := IDLE, "b" := IDLE]), Registered(Plain("c")),
            Alone(map["q" := IDLE, "p" := IDLE, "b" := IDLE, "c" := IDLE]));
    events := events + [Registered(Plain("c"))];
  }

  lemma Nominated(events: seq<Event>)
    requires Reaches(events, Alone(map["q" := IDLE, "p" := IDLE, "b" := IDLE, "c" := IDLE]))
    ensures Reaches(events + [Evicted("q")] + [Elected(Some({"p"}))],
                    Candidacy(map["p" := IDLE, "b" := IDLE, "c" := IDLE], None, {}))
  {
    var all := map["q" := IDLE, "p" := IDLE, "b" := IDLE, "c" := IDLE];
    var nodes := map["p" := IDLE, "b" := IDLE, "c" := IDLE];
    assert all - {"q"} == nodes;
    var vacant := Control(nodes, None, 1, false);
    OneMore(events, Alone(all), Evicted("q"), vacant);
    OnlyChoice({"p"} * nodes.Keys, "p");
    assert UnsyncAll(nodes) == nodes && nodes.Keys == {"p", "b", "c"};
    OneMore(events + [Evicted("q")], vacant, Elected(Some({"p"})), Candidacy(nodes, None, {}));
  }

  lemma FirstOfTwo()
    ensures First({"b", "c"}) == Some("b")
  {
  }

  lemma Substituted(events: seq<Event>)
    requires Reaches(events, Candidacy(map["p" := IDLE, "b" := IDLE, "c" := IDLE], None, {}))
    ensures Reaches(events + [BackupSought("p", 2)] + [SyncReported("b", "p", 2)] + [SyncFailed("p", 2, "b")]
                    + [BackupSought("p", 2)],
                    SecondBackup())
    ensures ReportSync(Candidacy(map["p" := IDLE, "b" := IDLE, "c" := IDLE], Some("b"), {"b"}), "b", "p", 2).1
         == Some(Ticket("p", 2, Promoting, "b", 0))
  {
    assert Strip("p") == "p" && Strip("b") == "b";
    var nodes := map["p" := IDLE, "b" := IDLE, "c" := IDLE];
    var start := Candidacy(nodes, None, {});
    assert Backups(nodes, "p", start.assignment.value) == {"b", "c"};
    FirstOfTwo();
    assert {} + {"b"} == {"b"};
    OneMore(events, start, BackupSought("p", 2), Candidacy(nodes, Some("b"), {"b"}));
    var marked := map["p" := IDLE, "b" := Node(true, 2, 0), "c" := IDLE];
    OneMore(events + [BackupSought("p", 2)], Candidacy(nodes, Some("b"), {"b"}), SyncReported("b", "p", 2),
        Candidacy(marked, Some("b"), {"b"}));
    var rest := map["p" := IDLE, "c" := IDLE];
    assert marked - {"b"} == rest;
    var third := events + [BackupSought("p", 2)] + [SyncReported("b", "p", 2)];
    OneMore(third, Candidacy(marked, Some("b"), {"b"}), SyncFailed("p", 2, "b"), Candidacy(rest, None, {"b"}));
    assert Backups(rest, "p", Candidacy(rest, None, {"b"}).assignment.value) == {"c"};
    OnlyChoice({"c"}, "c");
    assert {"b"} + {"c"} == {"b", "c"};
    OneMore(third + [SyncFailed("p", 2, "b")], Candidacy(rest, None, {"b"}), BackupSought("p", 2), SecondBackup());
  }

  /**
   * The failure of a completion call is not tied to its backup: the late failure of the attempt with "b", which
   * can no longer complete, abandons the promotion while "c" is being synchronized.
   */
  lemma OlderAttemptAbandonsPromotion()
    ensures Reaches(Promotion(), SecondBackup())
    ensures Stale(SecondBackup(), Ticket("p", 2, Promoting, "b", 0))
    ensures Live(SecondBackup(), Ticket("p", 2, Promoting, "c", 0))
    ensures Abandon(SecondBackup(), "p", 2).assignment.None?
  {
    var events := Gathered();
    Nominated(events);
    Substituted(events + [Evicted("q")] + [Elected(Some({"p"}))]);
  }
}
