/**
  The shared cache of addresses, keyed by the raw public key alone.  A call looks the key up under the
  read lock, computes the address if it is missing, leaves, and stores it under the write lock.
*/
module AddressCache {
  import opened Base58
  import opened Bytes
  import opened ReadWriteLock
  import KeyText
  import opened Wrappers

  type Text = seq<Ascii>

  datatype Key = Key(kind: Ascii, raw: seq<Byte>)

  /** How far the call of a thread has come; looking and storing take time, so they begin and end. */
  datatype Work =
    | Rest
    | Entering(key: Key)
    | Looking(key: Key)
    | Looked(key: Key, text: Text, missing: bool)
    | Missed(key: Key, text: Text)
    | Waiting(key: Key, text: Text)
    | Storing(key: Key, text: Text)
    | Stored(key: Key, text: Text)
    | Done(key: Key, text: Text)

  datatype State = State(lock: Lock, table: map<seq<Byte>, Text>, work: map<Thread, Work>)

  /** What a thread does to the lock next. */
  function NextAction(s: State, t: Thread): Option<Action>
    requires t in s.work && t in s.lock.threads
  {
    match s.work[t]
    case Rest => Some(ReadEnter)
    case Entering(_) => Some(if s.lock.threads[t].place == Entered then ReadCount else ReadLeave)
    case Looked(_, _, _) => Some(ReadUnlock)
    case Missed(_, _) => Some(WriteEnter)
    case Waiting(_, _) => Some(WriteProceed)
    case Stored(_, _) => Some(WriteUnlock)
    case _ => None
  }

  predicate Able(s: State, t: Thread) {
    && t in s.work && t in s.lock.threads
    && (NextAction(s, t).Some? ==> Enabled(s.lock, t, NextAction(s, t).value))
  }

  function Found(address: Key -> Text, table: map<seq<Byte>, Text>, key: Key): Text {
    if key.raw in table then table[key.raw] else address(key)
  }

  function NextWork(address: Key -> Text, s: State, t: Thread, asked: Key): Work
    requires Able(s, t)
  {
    match s.work[t]
    case Rest => Entering(asked)
    case Entering(key) => if s.lock.threads[t].place == Entered then Entering(key) else Looking(key)
    case Looking(key) => Looked(key, Found(address, s.table, key), key.raw !in s.table)
    case Looked(key, text, missing) => if missing then Missed(key, text) else Done(key, text)
    case Missed(key, text) => Waiting(key, text)
    case Waiting(key, text) => Storing(key, text)
    case Storing(key, text) => Stored(key, text)
    case Stored(key, text) => Done(key, text)
    case Done(_, _) => Rest
  }

  /** One step of a thread; `asked` is the key of the call if it begins one. */
  function Turn(address: Key -> Text, s: State, t: Thread, asked: Key): State
    requires Able(s, t)
  {
    State(
      if NextAction(s, t).Some? then Step(s.lock, t, NextAction(s, t).value) else s.lock,
      if s.work[t].Storing? then s.table[s.work[t].key.raw := s.work[t].text] else s.table,
      s.work[t := NextWork(address, s, t, asked)])
  }

  function Start(threads: set<Thread>): State {
    State(Init(threads), map[], map t | t in threads :: Rest)
  }

  datatype Choice = Choice(thread: Thread, asked: Key)

  /** A run in which only admitted keys are asked for. */
  ghost predicate Runs(address: Key -> Text, admitted: Key -> bool, s: State, run: seq<Choice>, s': State)
    decreases |run|
  {
    if run == [] then s' == s
    else
      && Able(s, run[0].thread) && admitted(run[0].asked)
      && Runs(address, admitted, Turn(address, s, run[0].thread, run[0].asked), run[1..], s')
  }

  // ---------- The lock covers every access to the table ----------

  predicate InLine(w: Work, me: Local) {
    match w
    case Rest => me == Local(Idle, 0, 0)
    case Entering(_) => me == Local(Entered, 0, 0) || me == Local(Counted, 0, 0)
    case Looking(_) => me == Local(Idle, 1, 0)
    case Looked(_, _, _) => me == Local(Idle, 1, 0)
    case Missed(_, _) => me == Local(Idle, 0, 0)
    case Waiting(_, _) => me == Local(Spinning, 0, 0)
    case Storing(_, _) => me == Local(Idle, 0, 1)
    case Stored(_, _) => me == Local(Idle, 0, 1)
    case Done(_, _) => me == Local(Idle, 0, 0)
  }

  ghost predicate Covered(s: State) {
    && Inv(s.lock) && s.work.Keys == s.lock.threads.Keys
    && (forall t :: t in s.work ==> InLine(s.work[t], s.lock.threads[t]))
  }

  lemma ThreadInLine(address: Key -> Text, s: State, t: Thread, asked: Key)
    requires Able(s, t) && InLine(s.work[t], s.lock.threads[t])
    ensures var s' := Turn(address, s, t, asked); t in s'.lock.threads && InLine(s'.work[t], s'.lock.threads[t])
  {
    match s.work[t] {
      case Rest =>
      case Entering(_) =>
      case Looking(_) =>
      case Looked(_, _, _) =>
      case Missed(_, _) =>
      case Waiting(_, _) =>
      case Storing(_, _) =>
      case Stored(_, _) =>
      case Done(_, _) =>
    }
  }

  lemma OthersStay(l: Lock, t: Thread, a: Action)
    requires Enabled(l, t, a)
    ensures Step(l, t, a).threads == l.threads[t := Step(l, t, a).threads[t]]
  {
  }

  /** The turn of one thread leaves the call of another, and its part of the lock, as they were. */
  lemma OtherInLine(address: Key -> Text, s: State, t: Thread, asked: Key, u: Thread)
    requires Able(s, t) && u != t && u in s.work && u in s.lock.threads
    ensures var s' := Turn(address, s, t, asked);
      u in s'.lock.threads && s'.work[u] == s.work[u] && s'.lock.threads[u] == s.lock.threads[u]
  {
    if NextAction(s, t).Some? { OthersStay(s.lock, t, NextAction(s, t).value); }
  }

  lemma TurnLock(address: Key -> Text, s: State, t: Thread, asked: Key)
    requires Inv(s.lock) && Able(s, t)
    ensures Inv(Turn(address, s, t, asked).lock)
  {
    if NextAction(s, t).Some? { StepKeeps(s.lock, t, NextAction(s, t).value); }
  }

  lemma TurnThreads(address: Key -> Text, s: State, t: Thread, asked: Key)
    requires Able(s, t) && s.work.Keys == s.lock.threads.Keys
    ensures Turn(address, s, t, asked).work.Keys == Turn(address, s, t, asked).lock.threads.Keys == s.work.Keys
  {
    if NextAction(s, t).Some? { OthersStay(s.lock, t, NextAction(s, t).value); }
  }

  lemma TurnCovered(address: Key -> Text, s: State, t: Thread, asked: Key)
    requires Covered(s) && Able(s, t)
    ensures Covered(Turn(address, s, t, asked))
  {
    var s' := Turn(address, s, t, asked);
    TurnLock(address, s, t, asked);
    TurnThreads(address, s, t, asked);
    forall u | u in s'.work ensures InLine(s'.work[u], s'.lock.threads[u]) {
      assert InLine(s.work[u], s.lock.threads[u]);
      if u == t { ThreadInLine(address, s, t, asked); } else { OtherInLine(address, s, t, asked, u); }
    }
  }

  // ---------- Every answer comes from an admitted key with the same bytes ----------

  ghost predicate Plausible(address: Key -> Text, admitted: Key -> bool, raw: seq<Byte>, text: Text) {
    exists k :: admitted(k) && k.raw == raw && text == address(k)
  }

  ghost predicate WorkOk(address: Key -> Text, admitted: Key -> bool, w: Work) {
    && (!w.Rest? ==> admitted(w.key))
    && (w.Looked? || w.Missed? || w.Waiting? || w.Storing? || w.Stored? || w.Done? ==>
          Plausible(address, admitted, w.key.raw, w.text))
  }

  ghost predicate Honest(address: Key -> Text, admitted: Key -> bool, s: State) {
    && (forall raw :: raw in s.table ==> Plausible(address, admitted, raw, s.table[raw]))
    && (forall t :: t in s.work ==> WorkOk(address, admitted, s.work[t]))
  }

  lemma ComputedPlausible(address: Key -> Text, admitted: Key -> bool, key: Key)
    requires admitted(key)
    ensures Plausible(address, admitted, key.raw, address(key))
  {
  }

  lemma TurnHonest(address: Key -> Text, admitted: Key -> bool, s: State, t: Thread, asked: Key)
    requires Honest(address, admitted, s) && Able(s, t) && admitted(asked)
    ensures Honest(address, admitted, Turn(address, s, t, asked))
  {
    var w := s.work[t];
    assert WorkOk(address, admitted, w);
    if w.Looking? { ComputedPlausible(address, admitted, w.key); }
    assert WorkOk(address, admitted, NextWork(address, s, t, asked));
  }

  lemma {:induction false} RunSound(address: Key -> Text, admitted: Key -> bool, s: State, run: seq<Choice>, s': State)
    requires Covered(s) && Honest(address, admitted, s) && Runs(address, admitted, s, run, s')
    ensures Covered(s') && Honest(address, admitted, s')
    decreases |run|
  {
    if run != [] {
      TurnCovered(address, s, run[0].thread, run[0].asked);
      TurnHonest(address, admitted, s, run[0].thread, run[0].asked);
      RunSound(address, admitted, Turn(address, s, run[0].thread, run[0].asked), run[1..], s');
    }
  }

  lemma StartSound(address: Key -> Text, admitted: Key -> bool, threads: set<Thread>)
    ensures Covered(Start(threads)) && Honest(address, admitted, Start(threads))
  {
    InitInv(threads);
  }

  /** No interleaving lets one thread store while another looks up or stores. */
  lemma NoRace(address: Key -> Text, admitted: Key -> bool, threads: set<Thread>, run: seq<Choice>, s: State,
               t: Thread, u: Thread)
    requires Runs(address, admitted, Start(threads), run, s)
    requires t in s.work && u in s.work && t != u && s.work[t].Storing?
    ensures !s.work[u].Looking? && !s.work[u].Storing?
  {
    StartSound(address, admitted, threads);
    RunSound(address, admitted, Start(threads), run, s);
    assert InLine(s.work[t], s.lock.threads[t]) && InLine(s.work[u], s.lock.threads[u]);
    assert Counts(s.lock.threads[u]) == 0;
  }

  // ---------- When the cache answers what would be computed ----------

  /** Keys with the same bytes have the same address. */
  ghost predicate OneAddress(address: Key -> Text, admitted: Key -> bool) {
    forall k, k' :: admitted(k) && admitted(k') && k.raw == k'.raw ==> address(k) == address(k')
  }

  ghost predicate WrongAnswer(address: Key -> Text, admitted: Key -> bool, run: seq<Choice>, s: State, t: Thread) {
    && Runs(address, admitted, Start({0}), run, s)
    && t in s.work && s.work[t].Done? && s.work[t].text != address(s.work[t].key)
  }

  /** If they do, every call in every run of any threads answers with the address of its key. */
  lemma AnswersRight(address: Key -> Text, admitted: Key -> bool, threads: set<Thread>, run: seq<Choice>, s: State,
                     t: Thread)
    requires OneAddress(address, admitted) && Runs(address, admitted, Start(threads), run, s)
    requires t in s.work && s.work[t].Done?
    ensures s.work[t].text == address(s.work[t].key)
  {
    StartSound(address, admitted, threads);
    RunSound(address, admitted, Start(threads), run, s);
    var key := s.work[t].key;
    assert WorkOk(address, admitted, s.work[t]);
    var k :| admitted(k) && k.raw == key.raw && s.work[t].text == address(k);
  }

  /** One thread alone, between calls. */
  function Quiet(table: map<seq<Byte>, Text>, w: Work): State {
    State(Lock(None, 0, 0, map[0 := Local(Idle, 0, 0)]), table, map[0 := w])
  }

  lemma {:induction false} RunsThen(address: Key -> Text, admitted: Key -> bool, s: State, first: seq<Choice>,
                                    middle: State,
                                    second: seq<Choice>, s': State)
    requires Runs(address, admitted, s, first, middle) && Runs(address, admitted, middle, second, s')
    ensures Runs(address, admitted, s, first + second, s')
    decreases |first|
  {
    if first == [] {
      assert first + second == second;
    } else {
      assert (first + second)[1..] == first[1..] + second;
      RunsThen(address, admitted, Turn(address, s, first[0].thread, first[0].asked), first[1..], middle, second, s');
    }
  }

  lemma RunOne(address: Key -> Text, admitted: Key -> bool, s: State, asked: Key)
    requires Able(s, 0) && admitted(asked)
    ensures Runs(address, admitted, s, [Choice(0, asked)], Turn(address, s, 0, asked))
  {
    assert [Choice(0, asked)][1..] == [];
  }

  function ReadingAt(address: Key -> Text, table: map<seq<Byte>, Text>, key: Key, n: nat): State {
    if n == 0 then Quiet(table, Rest)
    else if n == 1 then State(Lock(Some(0), 1, 0, map[0 := Local(Entered, 0, 0)]), table, map[0 := Entering(key)])
    else if n == 2 then State(Lock(Some(0), 1, 1, map[0 := Local(Counted, 0, 0)]), table, map[0 := Entering(key)])
    else if n == 3 then State(Lock(None, 0, 1, map[0 := Local(Idle, 1, 0)]), table, map[0 := Looking(key)])
    else if n == 4 then
      State(Lock(None, 0, 1, map[0 := Local(Idle, 1, 0)]), table,
            map[0 := Looked(key, Found(address, table, key), key.raw !in table)])
    else Quiet(table, if key.raw in table then Done(key, table[key.raw]) else Missed(key, address(key)))
  }

  lemma ReadingStep(address: Key -> Text, table: map<seq<Byte>, Text>, key: Key, n: nat)
    requires n < 5
    ensures Able(ReadingAt(address, table, key, n), 0)
    ensures Turn(address, ReadingAt(address, table, key, n), 0, key) == ReadingAt(address, table, key, n + 1)
  {
    if n == 0 {} else if n == 1 {} else if n == 2 {} else if n == 3 {}
  }

  /** The reading half of a call. */
  lemma ReadingHalf(address: Key -> Text, admitted: Key -> bool, table: map<seq<Byte>, Text>, key: Key)
      returns (run: seq<Choice>)
    requires admitted(key)
    ensures Runs(address, admitted, Quiet(table, Rest), run,
              Quiet(table, if key.raw in table then Done(key, table[key.raw]) else Missed(key, address(key))))
  {
    var s := Quiet(table, Rest);
    run := [];
    var n := 0;
    while n < 5
      invariant 0 <= n <= 5 && Runs(address, admitted, Quiet(table, Rest), run, s)
      invariant s == ReadingAt(address, table, key, n)
    {
      ReadingStep(address, table, key, n);
      RunOne(address, admitted, s, key);
      RunsThen(address, admitted, Quiet(table, Rest), run, s, [Choice(0, key)], Turn(address, s, 0, key));
      run, s, n := run + [Choice(0, key)], Turn(address, s, 0, key), n + 1;
    }
  }

  function WritingAt(table: map<seq<Byte>, Text>, key: Key, text: Text, n: nat): State {
    if n == 0 then Quiet(table, Missed(key, text))
    else if n == 1 then State(Lock(Some(0), 1, 0, map[0 := Local(Spinning, 0, 0)]), table, map[0 := Waiting(key, text)])
    else if n == 2 then State(Lock(Some(0), 1, 0, map[0 := Local(Idle, 0, 1)]), table, map[0 := Storing(key, text)])
    else if n == 3 then
      State(Lock(Some(0), 1, 0, map[0 := Local(Idle, 0, 1)]), table[key.raw := text], map[0 := Stored(key, text)])
    else Quiet(table[key.raw := text], if n == 4 then Done(key, text) else Rest)
  }

  lemma WritingStep(address: Key -> Text, table: map<seq<Byte>, Text>, key: Key, text: Text, n: nat)
    requires n < 5
    ensures Able(WritingAt(table, key, text, n), 0)
    ensures Turn(address, WritingAt(table, key, text, n), 0, key) == WritingAt(table, key, text, n + 1)
  {
    hide Able, Turn, WritingAt;
    if n < 2 { Asking(address, table, key, text, n); } else { Writing(address, table, key, text, n); }
  }

  lemma Asking(address: Key -> Text, table: map<seq<Byte>, Text>, key: Key, text: Text, n: nat)
    requires n < 2
    ensures Able(WritingAt(table, key, text, n), 0)
    ensures Turn(address, WritingAt(table, key, text, n), 0, key) == WritingAt(table, key, text, n + 1)
  {
    if n == 0 {}
  }

  lemma Writing(address: Key -> Text, table: map<seq<Byte>, Text>, key: Key, text: Text, n: nat)
    requires 2 <= n < 5
    ensures Able(WritingAt(table, key, text, n), 0)
    ensures Turn(address, WritingAt(table, key, text, n), 0, key) == WritingAt(table, key, text, n + 1)
  {
    if n == 2 {} else if n == 3 {}
  }

  /** The writing half of a call that found nothing, and the thread back at rest. */
  lemma WritingHalf(address: Key -> Text, admitted: Key -> bool, table: map<seq<Byte>, Text>, key: Key, text: Text)
      returns (run: seq<Choice>)
    requires admitted(key)
    ensures Runs(address, admitted, Quiet(table, Missed(key, text)), run, Quiet(table[key.raw := text], Rest))
  {
    var s := Quiet(table, Missed(key, text));
    run := [];
    var n := 0;
    while n < 5
      invariant 0 <= n <= 5 && Runs(address, admitted, Quiet(table, Missed(key, text)), run, s)
      invariant s == WritingAt(table, key, text, n)
    {
      WritingStep(address, table, key, text, n);
      RunOne(address, admitted, s, key);
      RunsThen(address, admitted, Quiet(table, Missed(key, text)), run, s, [Choice(0, key)], Turn(address, s, 0, key));
      run, s, n := run + [Choice(0, key)], Turn(address, s, 0, key), n + 1;
    }
  }

  /**
    Two keys with the same bytes and different addresses: asked for one after the other, the second gets the
    address of the first.
  */
  lemma SecondGetsFirst(address: Key -> Text, admitted: Key -> bool, k: Key, k': Key)
      returns (run: seq<Choice>, s: State)
    requires admitted(k) && admitted(k') && k.raw == k'.raw
    ensures Runs(address, admitted, Start({0}), run, s) && 0 in s.work && s.work[0] == Done(k', address(k))
  {
    var empty: map<seq<Byte>, Text> := map[];
    var one := ReadingHalf(address, admitted, empty, k);
    var two := WritingHalf(address, admitted, empty, k, address(k));
    var three := ReadingHalf(address, admitted, empty[k.raw := address(k)], k');
    assert Start({0}) == Quiet(empty, Rest);
    var filled := Quiet(empty[k.raw := address(k)], Rest);
    s := Quiet(empty[k.raw := address(k)], Done(k', address(k)));
    RunsThen(address, admitted, Quiet(empty, Rest), one, Quiet(empty, Missed(k, address(k))), two, filled);
    RunsThen(address, admitted, Quiet(empty, Rest), one + two, filled, three, s);
    run := one + two + three;
  }

  /** The cache answers rightly in every run exactly when keys with the same bytes have the same address. */
  lemma RightExactly(address: Key -> Text, admitted: Key -> bool)
    ensures OneAddress(address, admitted) <==> !exists run, s, t :: WrongAnswer(address, admitted, run, s, t)
  {
    if OneAddress(address, admitted) {
      forall run, s, t ensures !WrongAnswer(address, admitted, run, s, t) {
        if WrongAnswer(address, admitted, run, s, t) { AnswersRight(address, admitted, {0}, run, s, t); }
      }
    } else {
      var k, k' :| admitted(k) && admitted(k') && k.raw == k'.raw && address(k) != address(k');
      var run, s := SecondGetsFirst(address, admitted, k, k');
      assert WrongAnswer(address, admitted, run, s, 0);
    }
  }

  // ---------- The address of a public key ----------

  /** The text of the hash of the key without its first ten bytes; which hash it is depends on the kind. */
  function AddressOf(hash: Key -> seq<Byte>, key: Key): Text
    requires |hash(key)| == 32
  {
    KeyText.AddressText(key.kind, 'f', hash(key)[10..])
  }

  ghost predicate Addresses(address: Key -> Text, hash: Key -> seq<Byte>) {
    forall k :: |hash(k)| == 32 && address(k) == AddressOf(hash, k)
  }

  /**
    The kind is written in the address, so keys have one address exactly when the bytes of a key determine its
    kind.
  */
  lemma KindInAddress(address: Key -> Text, hash: Key -> seq<Byte>, admitted: Key -> bool)
    requires Addresses(address, hash)
    ensures OneAddress(address, admitted)
       <==> forall k, k' :: admitted(k) && admitted(k') && k.raw == k'.raw ==> k.kind == k'.kind
  {
    forall k, k' | admitted(k) && admitted(k') && k.raw == k'.raw && address(k) == address(k')
      ensures k.kind == k'.kind
    {
      assert address(k)[8] == k.kind && address(k')[8] == k'.kind;
    }
  }
}
