/** FileStore.Put as the code runs it: a call looks its destination up, and later renames a
    finished temporary file onto it, replacing whatever has appeared there in between. */
module Publishing {
  import opened Base
  import opened Tokens

  type Path = seq<string>

  datatype Phase = Looking | Renaming | Finished(error: Option<StoreError>)

  datatype Put = Put(path: Path, body: string, phase: Phase)

  datatype Puts = Puts(files: map<Path, string>, calls: map<nat, Put>)

  /** A step of one call. Any system call of an unfinished call may fail. */
  datatype Move = Look(call: nat) | Rename(call: nat) | Fail(call: nat)

  /** A call about to put this token, its arguments found valid. */
  function Starting(scope: string, d: Digest, token: string): Put {
    Put([scope, Hex(d.bytes)], token + "\n", Looking)
  }

  lemma SamePath(scope: string, d: Digest, token: string, scope': string, d': Digest, token': string)
    ensures Starting(scope, d, token).path == Starting(scope', d', token').path <==> scope == scope' && d == d'
  {
    var p, q := Starting(scope, d, token).path, Starting(scope', d', token').path;
    if p == q {
      assert p[0] == q[0] && p[1] == q[1];
      HexInjective(d.bytes, d'.bytes);
    }
  }

  function Finish(s: Puts, c: nat, error: Option<StoreError>): Puts
    requires c in s.calls
  {
    s.(calls := s.calls[c := s.calls[c].(phase := Finished(error))])
  }

  function Publish(s: Puts, c: nat): Puts
    requires c in s.calls
  {
    Finish(s, c, None).(files := s.files[s.calls[c].path := s.calls[c].body])
  }

  /** A step that is not enabled changes nothing. */
  function Step(s: Puts, m: Move): Puts {
    if m.call !in s.calls then s else
    var c, p := m.call, s.calls[m.call];
    match m
    case Look(_) =>
      if !p.phase.Looking? then s
      else if p.path in s.files then Finish(s, c, Some(AlreadyExists))
      else s.(calls := s.calls[c := p.(phase := Renaming)])
    case Rename(_) => if p.phase.Renaming? then Publish(s, c) else s
    case Fail(_) => if p.phase.Finished? then s else Finish(s, c, Some(FileSystem))
  }

  function Run(s: Puts, moves: seq<Move>): Puts {
    if moves == [] then s else Step(Run(s, moves[..|moves| - 1]), moves[|moves| - 1])
  }

  lemma RunMore(s: Puts, moves: seq<Move>, m: Move)
    ensures Run(s, moves + [m]) == Step(Run(s, moves), m)
    ensures Run(s, []) == s
  {
    hide Step;
    assert (moves + [m])[..|moves|] == moves;
  }

  /** A call that nobody interrupts does what Tokens.FileStore.Put promises: with the path free it
      publishes one file, the token and a newline, at the place its reference resolves to; with the
      path taken it changes nothing and says so. One that fails leaves no file. */
  lemma AloneAgrees(s: Puts, c: nat, scope: string, d: Digest, token: string)
    requires c in s.calls && s.calls[c] == Starting(scope, d, token)
    requires ValidScope(scope) && |d.bytes| == DIGEST_LENGTH
    ensures Resolve(Ref(scope, d)).Some?
    ensures var path := Resolve(Ref(scope, d)).value; var s' := Run(s, [Look(c), Rename(c)]);
      && s'.files == (if path in s.files then s.files else s.files[path := token + "\n"])
      && c in s'.calls && s'.calls[c].phase == Finished(if path in s.files then Some(AlreadyExists) else None)
      && forall e :: e != c ==> (e in s'.calls <==> e in s.calls) && (e in s.calls ==> s'.calls[e] == s.calls[e])
    ensures var s' := Run(s, [Fail(c)]);
      s'.files == s.files && c in s'.calls && s'.calls[c].phase == Finished(Some(FileSystem))
  {
    ResolveRef(scope, d);
    RunMore(s, [], Fail(c));
    assert [] + [Fail(c)] == [Fail(c)];
    RunMore(s, [], Look(c));
    RunMore(s, [Look(c)], Rename(c));
    assert [] + [Look(c)] == [Look(c)] && [Look(c)] + [Rename(c)] == [Look(c), Rename(c)];
    hide Run, Resolve, Hex, Ref;
  }

  /** The specification: lookup and rename at once, as in Tokens.FileStore.Put. */
  datatype Event = Event(call: nat, fails: bool)

  function StepAtomic(s: Puts, e: Event): Puts {
    if e.call !in s.calls || !s.calls[e.call].phase.Looking? then s
    else if e.fails then Finish(s, e.call, Some(FileSystem))
    else if s.calls[e.call].path in s.files then Finish(s, e.call, Some(AlreadyExists))
    else Publish(s, e.call)
  }

  function RunAtomic(s: Puts, events: seq<Event>): Puts {
    if events == [] then s else StepAtomic(RunAtomic(s, events[..|events| - 1]), events[|events| - 1])
  }

  /** A call that has only looked has, atomically seen, done nothing yet. */
  function View(s: Puts): Puts {
    s.(calls := map c | c in s.calls ::
      if s.calls[c].phase.Renaming? then s.calls[c].(phase := Looking) else s.calls[c])
  }

  /** The files and all answers are those of the calls put one after another in some order. */
  ghost predicate Serial(start: Puts, s: Puts) {
    exists events :: RunAtomic(start, events) == View(s)
  }

  ghost predicate AllLooking(s: Puts) {
    forall c :: c in s.calls ==> s.calls[c].phase.Looking?
  }

  /** This step replaces a file. */
  predicate Overwrites(s: Puts, m: Move) {
    m.Rename? && m.call in s.calls && s.calls[m.call].phase.Renaming? && s.calls[m.call].path in s.files
  }

  ghost predicate NeverOverwrites(start: Puts, moves: seq<Move>) {
    forall i | 0 <= i < |moves| :: !Overwrites(Run(start, moves[..i]), moves[i])
  }

  predicate Succeeded(s: Puts, c: nat) {
    c in s.calls && s.calls[c].phase == Finished(None)
  }

  // ---- Runs that never overwrite are serial -----------------------------------------------------

  lemma StepSerial(s: Puts, m: Move)
    requires !Overwrites(s, m)
    ensures View(Step(s, m)) == View(s) || exists e :: View(Step(s, m)) == StepAtomic(View(s), e)
  {
    if m.call in s.calls {
      var e := Event(m.call, m.Fail?);
      assert View(Step(s, m)) == View(s) || View(Step(s, m)) == StepAtomic(View(s), e);
    }
  }

  lemma {:induction false} QuietIsSerial(start: Puts, moves: seq<Move>)
    requires AllLooking(start) && NeverOverwrites(start, moves)
    ensures Serial(start, Run(start, moves))
  {
    hide Step, StepAtomic, View, Overwrites;
    if moves == [] {
      assert RunAtomic(start, []) == View(start) by { Unstarted(start); }
    } else {
      var n := |moves| - 1;
      assert forall i | 0 <= i < n :: moves[..n][..i] == moves[..i];
      QuietIsSerial(start, moves[..n]);
      var before := Run(start, moves[..n]);
      var events :| RunAtomic(start, events) == View(before);
      StepSerial(before, moves[n]);
      if View(Step(before, moves[n])) != View(before) {
        var e :| View(Step(before, moves[n])) == StepAtomic(View(before), e);
        assert (events + [e])[..|events|] == events;
        assert RunAtomic(start, events + [e]) == View(Run(start, moves));
      }
    }
  }

  lemma Unstarted(s: Puts)
    requires AllLooking(s)
    ensures View(s) == s
  {
    assert View(s).calls == s.calls;
  }

  // ---- Runs that overwrite are not --------------------------------------------------------------

  /** Calls keep their arguments and files stay; every new file is some successful call's; whoever
      is about to rename found nothing there. */
  ghost predicate Grown(start: Puts, s: Puts) {
    && s.calls.Keys == start.calls.Keys && start.files.Keys <= s.files.Keys
    && (forall c :: c in s.calls ==> s.calls[c].path == start.calls[c].path && s.calls[c].body == start.calls[c].body)
    && (forall c :: c in s.calls && s.calls[c].phase.Renaming? ==> s.calls[c].path !in start.files)
    && (forall p :: p in s.files && p !in start.files ==> exists c :: Succeeded(s, c) && s.calls[c].path == p)
  }

  lemma MovedGrows(start: Puts, s: Puts, c: nat, s': Puts)
    requires Grown(start, s) && c in s.calls && !Succeeded(s, c) && c in s'.calls && s'.files == s.files
    requires s'.calls == s.calls[c := s.calls[c].(phase := s'.calls[c].phase)]
    requires s'.calls[c].phase.Renaming? ==> s.calls[c].path !in start.files
    ensures Grown(start, s') && forall f :: Succeeded(s, f) ==> Succeeded(s', f)
  {
    forall p | p in s'.files && p !in start.files ensures exists f :: Succeeded(s', f) && s'.calls[f].path == p {
      var f :| Succeeded(s, f) && s.calls[f].path == p;
      assert Succeeded(s', f);
    }
  }

  lemma PublishGrows(start: Puts, s: Puts, c: nat)
    requires Grown(start, s) && c in s.calls && !Succeeded(s, c)
    ensures var s' := Publish(s, c); Grown(start, s') && forall f :: Succeeded(s, f) ==> Succeeded(s', f)
  {
    var s' := Publish(s, c);
    assert Succeeded(s', c);
    forall p | p in s'.files && p !in start.files ensures exists f :: Succeeded(s', f) && s'.calls[f].path == p {
      if p != s.calls[c].path {
        var f :| Succeeded(s, f) && s.calls[f].path == p;
        assert Succeeded(s', f);
      }
    }
  }

  lemma FilesStay(start: Puts, s: Puts, p: Path)
    requires Grown(start, s) && p !in s.files
    ensures p !in start.files
  {
  }

  lemma StepGrows(start: Puts, s: Puts, m: Move)
    requires Grown(start, s)
    ensures Grown(start, Step(s, m))
    ensures forall c :: Succeeded(s, c) ==> Succeeded(Step(s, m), c)
  {
    if m.call in s.calls && !s.calls[m.call].phase.Finished? {
      if s.calls[m.call].path !in s.files { FilesStay(start, s, s.calls[m.call].path); }
      hide Grown;
      if m.Rename? && s.calls[m.call].phase.Renaming? { PublishGrows(start, s, m.call); }
      else { MovedGrows(start, s, m.call, Step(s, m)); }
    }
  }

  lemma {:induction false} RunGrows(start: Puts, moves: seq<Move>)
    requires AllLooking(start)
    ensures Grown(start, Run(start, moves))
  {
    hide Step;
    if moves != [] {
      RunGrows(start, moves[..|moves| - 1]);
      StepGrows(start, Run(start, moves[..|moves| - 1]), moves[|moves| - 1]);
    }
  }

  lemma {:induction false} SuccessStays(start: Puts, moves: seq<Move>, i: nat, c: nat)
    requires AllLooking(start) && i <= |moves| && Succeeded(Run(start, moves[..i]), c)
    ensures Succeeded(Run(start, moves), c)
    decreases |moves|
  {
    hide Step, Succeeded, Grown;
    var n := |moves|;
    if i == n {
      assert moves[..i] == moves;
    } else {
      assert moves[..n - 1][..i] == moves[..i];
      SuccessStays(start, moves[..n - 1], i, c);
      RunGrows(start, moves[..n - 1]);
      StepGrows(start, Run(start, moves[..n - 1]), moves[n - 1]);
    }
  }

  /** Two calls put on one path and both report success. */
  ghost predicate BothSucceed(s: Puts, c: nat, e: nat) {
    c != e && Succeeded(s, c) && Succeeded(s, e) && s.calls[c].path == s.calls[e].path
  }

  lemma OverwriteShows(start: Puts, s: Puts, m: Move) returns (e: nat)
    requires Grown(start, s) && Overwrites(s, m)
    ensures e != m.call && Succeeded(s, e) && s.calls[e].path == s.calls[m.call].path
    ensures s.calls[e].path !in start.files
    ensures Succeeded(Step(s, m), m.call)
  {
    e :| Succeeded(s, e) && s.calls[e].path == s.calls[m.call].path;
  }

  /** Put one after another, calls succeed once for each path. */
  ghost predicate OnePerPath(s: Puts) {
    && (forall c :: Succeeded(s, c) ==> s.calls[c].path in s.files)
    && (forall c, e :: !BothSucceed(s, c, e))
  }

  lemma PublishedOnePerPath(s: Puts, c: nat)
    requires OnePerPath(s) && c in s.calls && s.calls[c].path !in s.files
    ensures OnePerPath(Publish(s, c))
  {
    var s' := Publish(s, c);
    forall f | Succeeded(s', f) ensures s'.calls[f].path in s'.files && !BothSucceed(s', c, f) {
      if f != c { assert Succeeded(s, f); }
    }
    forall f, g ensures !BothSucceed(s', f, g) {
      if f != c && g != c { assert !BothSucceed(s, f, g); }
    }
  }

  lemma FinishedOnePerPath(s: Puts, c: nat, error: StoreError)
    requires OnePerPath(s) && c in s.calls
    ensures OnePerPath(Finish(s, c, Some(error)))
  {
    var s' := Finish(s, c, Some(error));
    forall f | Succeeded(s', f) ensures s'.calls[f].path in s'.files { assert Succeeded(s, f); }
    forall f, g ensures !BothSucceed(s', f, g) { assert !BothSucceed(s, f, g); }
  }

  lemma {:induction false} SerialOnePerPath(start: Puts, events: seq<Event>)
    requires AllLooking(start)
    ensures OnePerPath(RunAtomic(start, events))
  {
    if events != [] {
      var before, e := RunAtomic(start, events[..|events| - 1]), events[|events| - 1];
      SerialOnePerPath(start, events[..|events| - 1]);
      hide OnePerPath;
      if e.call in before.calls && before.calls[e.call].path !in before.files { PublishedOnePerPath(before, e.call); }
      if e.call in before.calls {
        FinishedOnePerPath(before, e.call, FileSystem);
        FinishedOnePerPath(before, e.call, AlreadyExists);
      }
      hide Publish, Finish;
    } else {
      assert forall c :: !Succeeded(start, c);
    }
  }

  lemma OverwritingIsNotSerial(start: Puts, moves: seq<Move>, i: nat)
    requires AllLooking(start) && i < |moves| && Overwrites(Run(start, moves[..i]), moves[i])
    ensures !Serial(start, Run(start, moves))
  {
    hide Step, Overwrites, Grown, Succeeded;
    var s := Run(start, moves[..i]);
    RunGrows(start, moves[..i]);
    var e := OverwriteShows(start, s, moves[i]);
    assert moves[..i + 1][..i] == moves[..i];
    SuccessStays(start, moves, i, e);
    SuccessStays(start, moves, i + 1, moves[i].call);
    RunGrows(start, moves);
    var end := Run(start, moves);
    InCalls(s, moves[i], e);
    SamePaths(start, s, end, e, moves[i].call);
    if Serial(start, end) {
      var events :| RunAtomic(start, events) == View(end);
      SerialOnePerPath(start, events);
      SeenSucceeding(end, e, moves[i].call);
    }
  }

  lemma SamePaths(start: Puts, s: Puts, s': Puts, c: nat, e: nat)
    requires Grown(start, s) && Grown(start, s') && c in s.calls && e in s.calls
    requires s.calls[c].path == s.calls[e].path
    ensures c in s'.calls && e in s'.calls && s'.calls[c].path == s'.calls[e].path
  {
  }

  lemma SeenSucceeding(s: Puts, c: nat, e: nat)
    requires BothSucceed(s, c, e)
    ensures BothSucceed(View(s), c, e)
  {
  }

  /** The answers and files of a run are those of some order of atomic puts iff no rename of the
      run replaces a file. */
  lemma SerialIff(start: Puts, moves: seq<Move>)
    requires AllLooking(start)
    ensures Serial(start, Run(start, moves)) <==> NeverOverwrites(start, moves)
  {
    hide Serial, AllLooking, Run, Overwrites;
    if NeverOverwrites(start, moves) {
      QuietIsSerial(start, moves);
    } else {
      var i :| 0 <= i < |moves| && Overwrites(Run(start, moves[..i]), moves[i]);
      OverwritingIsNotSerial(start, moves, i);
    }
  }

  // ---- Which calls may run together -------------------------------------------------------------

  /** No two of the calls put on one path, unless it is taken already. */
  ghost predicate Separate(s: Puts) {
    forall c, e | c in s.calls && e in s.calls && c != e :: s.calls[c].path == s.calls[e].path ==>
      s.calls[c].path in s.files
  }

  lemma SeparateNeverOverwrite(start: Puts, moves: seq<Move>, i: nat)
    requires AllLooking(start) && Separate(start) && i < |moves|
    ensures !Overwrites(Run(start, moves[..i]), moves[i])
  {
    hide Step, Run, Overwrites, Succeeded;
    if Overwrites(Run(start, moves[..i]), moves[i]) {
      RunGrows(start, moves[..i]);
      var e := OverwriteShows(start, Run(start, moves[..i]), moves[i]);
      InCalls(Run(start, moves[..i]), moves[i], e);
    }
  }

  lemma InCalls(s: Puts, m: Move, e: nat)
    requires Overwrites(s, m) && Succeeded(s, e)
    ensures m.call in s.calls && e in s.calls
  {
  }

  /** Two calls on a free path in the order that matters: both look before either renames. Both
      report success and the second token replaces the first. */
  lemma GapReplaces(start: Puts, c: nat, e: nat)
    requires AllLooking(start) && c in start.calls && e in start.calls && c != e
    requires start.calls[c].path == start.calls[e].path && start.calls[c].path !in start.files
    ensures var moves := [Look(c), Look(e), Rename(c), Rename(e)]; var s := Run(start, moves);
      && BothSucceed(s, c, e) && s.files == start.files[start.calls[e].path := start.calls[e].body]
      && Overwrites(Run(start, moves[..3]), moves[3])
  {
    var s1 := Step(start, Look(c));
    var s2 := Step(s1, Look(e));
    RunMore(start, [], Look(c));
    RunMore(start, [Look(c)], Look(e));
    RunMore(start, [Look(c), Look(e)], Rename(c));
    RunMore(start, [Look(c), Look(e), Rename(c)], Rename(e));
    hide Run;
    assert [] + [Look(c)] == [Look(c)] && [Look(c)] + [Look(e)] == [Look(c), Look(e)];
    assert [Look(c), Look(e)] + [Rename(c)] == [Look(c), Look(e), Rename(c)];
    assert [Look(c), Look(e), Rename(c)] + [Rename(e)] == [Look(c), Look(e), Rename(c), Rename(e)];
    assert [Look(c), Look(e), Rename(c), Rename(e)][..3] == [Look(c), Look(e), Rename(c)];
  }

  /** However the calls interleave and fail, the store behaves as if each put were one step, iff
      no two of them put on one free path: which for fresh tokens means that no two digests are
      the same. */
  lemma AtomicIff(start: Puts)
    requires AllLooking(start)
    ensures (forall moves :: Serial(start, Run(start, moves))) <==> Separate(start)
  {
    hide Serial, AllLooking, Run, Overwrites, BothSucceed;
    if Separate(start) {
      forall moves ensures Serial(start, Run(start, moves)) {
        SerialIff(start, moves);
        forall i | 0 <= i < |moves| ensures !Overwrites(Run(start, moves[..i]), moves[i]) {
          SeparateNeverOverwrite(start, moves, i);
        }
      }
    } else {
      var c, e :| c in start.calls && e in start.calls && c != e
        && start.calls[c].path == start.calls[e].path && start.calls[c].path !in start.files;
      GapReplaces(start, c, e);
      SerialIff(start, [Look(c), Look(e), Rename(c), Rename(e)]);
    }
  }
}
