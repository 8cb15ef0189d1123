/** The bridge between sources and consumers: publishing batches, and row views that must not
    outlive a publication. (bridge/bridge.c, include/pg_batch/batch.h) */
module Bridge {
  import opened Vectors

  const WORD: nat := 64
  const GENERATIONS: nat := 0x1_0000_0000_0000_0000

  /** The envelope of a batch; `usable` stands for its version, size and operations checks. */
  datatype Batch = Batch(usable: bool, nrows: int, words: seq<bool>, generation: nat)

  datatype Binding = Binding(attached: bool, batch: Option<nat>, finished: bool, requestSealed: bool, maxRows: int)

  /** All batches and bindings of a backend, by address, and the generation counter. */
  datatype State = State(batches: seq<Batch>, bindings: seq<Binding>, next: nat)

  datatype Call =
    | Attach
    | SetRequest(binding: nat, maxRows: int)
    | Seal(binding: nat)
    | Publish(binding: nat, batch: nat)
    | Finish(binding: nat)
    | Clear(binding: nat)
    | Detach(binding: nat)
    | Deselect(batch: nat, row: nat)
    | Create(content: Batch)
    | Reuse(batch: nat, content: Batch)

  // ----- single calls -----

  /** The checks of publish_batch on the batch alone. */
  predicate WellFormed(b: Batch, maxRows: int) {
    && b.usable && b.nrows > 0 && |b.words| == (b.nrows + WORD - 1) / WORD * WORD
    && (maxRows > 0 ==> b.nrows <= maxRows)
    && forall i | b.nrows <= i < |b.words| :: !b.words[i]
  }

  predicate CanPublish(s: State, binding: nat, batch: nat)
    requires binding < |s.bindings| && batch < |s.batches|
  {
    && s.bindings[binding].batch == None
    && s.batches[batch].generation == 0
    && WellFormed(s.batches[batch], s.bindings[binding].maxRows)
  }

  function Increment(g: nat): nat {
    (g + 1) % GENERATIONS
  }

  /** The generation a publication gets; zero is stepped over. */
  function NextGeneration(s: State): nat {
    if s.next == 0 then Increment(s.next) else s.next
  }

  /** release_batch: a held batch loses its generation and the binding lets go of it. */
  function Released(s: State, binding: nat): State
    requires binding < |s.bindings|
  {
    var b := s.bindings[binding];
    if b.batch == None || b.batch.value >= |s.batches| then s
    else
      s.(bindings := s.bindings[binding := b.(batch := None, finished := false)],
         batches := s.batches[b.batch.value := s.batches[b.batch.value].(generation := 0)])
  }

  /** The addresses a call uses are live. */
  predicate Exists(s: State, c: Call) {
    match c
    case Attach => true
    case SetRequest(b, _) => b < |s.bindings| && s.bindings[b].attached
    case Seal(b) => b < |s.bindings| && s.bindings[b].attached
    case Publish(b, i) => b < |s.bindings| && s.bindings[b].attached && i < |s.batches|
    case Finish(b) => b < |s.bindings| && s.bindings[b].attached
    case Clear(b) => b < |s.bindings| && s.bindings[b].attached
    case Detach(b) => b < |s.bindings| && s.bindings[b].attached
    case Deselect(i, row) => i < |s.batches| && row < |s.batches[i].words|
    case Create(_) => true
    case Reuse(i, _) => i < |s.batches|
  }

  /** No binding holds a batch: the source has not handed it out, or has got it back. */
  ghost predicate Unheld(s: State, batch: nat) {
    forall b | 0 <= b < |s.bindings| :: s.bindings[b].batch != Some(batch)
  }

  /** Only the bridge sets generations: a source's batch starts without one. */
  predicate SetsNoGeneration(c: Call) {
    match c
    case Create(content) => content.generation == 0
    case Reuse(_, content) => content.generation == 0
    case _ => true
  }

  /** The rule for sources: a batch is neither published nor rewritten before it is released. */
  ghost predicate SourceKeepsRules(s: State, c: Call) {
    match c
    case Publish(_, i) => Unheld(s, i)
    case Reuse(i, _) => Unheld(s, i)
    case _ => true
  }

  /** The state after a call; a call that is refused changes nothing. */
  function Apply(s: State, c: Call): State
    requires Exists(s, c)
  {
    match c
    case Attach => s.(bindings := s.bindings + [Binding(true, None, false, false, 0)])
    case SetRequest(b, maxRows) =>
      if s.bindings[b].requestSealed || maxRows < 0 then s
      else s.(bindings := s.bindings[b := s.bindings[b].(maxRows := maxRows)])
    case Seal(b) => s.(bindings := s.bindings[b := s.bindings[b].(requestSealed := true)])
    case Publish(b, i) =>
      if !CanPublish(s, b, i) then s
      else
        var g := NextGeneration(s);
        State(s.batches[i := s.batches[i].(generation := g)],
              s.bindings[b := s.bindings[b].(requestSealed := true, batch := Some(i), finished := false)], Increment(g))
    case Finish(b) =>
      if s.bindings[b].batch == None || s.bindings[b].finished || s.bindings[b].batch.value >= |s.batches| then s
      else
        var i := s.bindings[b].batch.value;
        s.(batches := s.batches[i := s.batches[i].(generation := 0)],
           bindings := s.bindings[b := s.bindings[b].(finished := true)])
    case Clear(b) => Released(s, b)
    case Detach(b) =>
      var r := Released(s, b);
      r.(bindings := r.bindings[b := r.bindings[b].(attached := false)])
    case Deselect(i, row) => s.(batches := s.batches[i := s.batches[i].(words := s.batches[i].words[row := false])])
    case Create(content) => s.(batches := s.batches + [content])
    case Reuse(i, content) => s.(batches := s.batches[i := content])
  }

  // ----- row views -----

  /** A view names the batch and the generation it was issued for. */
  datatype View = View(batch: nat, generation: nat)

  /** An active batch that is not finished. */
  predicate Active(s: State, binding: nat) {
    && binding < |s.bindings| && s.bindings[binding].batch != None && !s.bindings[binding].finished
    && s.bindings[binding].batch.value < |s.batches|
  }

  /** get_row_view */
  function ViewOf(s: State, binding: nat): View
    requires Active(s, binding)
  {
    View(s.bindings[binding].batch.value, s.batches[s.bindings[binding].batch.value].generation)
  }

  predicate Selected(b: Batch, row: int) {
    0 <= row < b.nrows && row < |b.words| && b.words[row]
  }

  /** pg_batch_row_view_select: accepted by generation alone, without looking at the binding. */
  predicate Accepts(s: State, v: View, row: int) {
    && v.batch < |s.batches| && v.generation != 0 && s.batches[v.batch].generation == v.generation
    && Selected(s.batches[v.batch], row)
  }

  // ----- what every call keeps -----

  /** After n publications no generation is ahead of the counter, early republication included. */
  ghost predicate Counted(s: State, n: nat) {
    && s.next == (n + 1) % GENERATIONS
    && (forall i | 0 <= i < |s.batches| :: s.batches[i].generation <= n)
    && (forall b | 0 <= b < |s.bindings| && s.bindings[b].batch != None :: s.bindings[b].batch.value < |s.batches|)
  }

  /** When sources keep the rule: a binding with an unfinished batch is the one that gave it
      its generation, and no batch is held twice. */
  ghost predicate Inv(s: State, n: nat) {
    && Counted(s, n)
    && (forall b | 0 <= b < |s.bindings| :: Sound(s, b))
    && (forall b, c | 0 <= b < |s.bindings| && 0 <= c < |s.bindings| && b != c && s.bindings[b].batch != None ::
          s.bindings[c].batch != s.bindings[b].batch)
    && (forall i | 0 <= i < |s.batches| && Unheld(s, i) :: s.batches[i].generation == 0)
  }

  ghost predicate Sound(s: State, b: nat)
    requires b < |s.bindings|
  {
    var binding := s.bindings[b];
    && (!binding.attached ==> binding.batch == None)
    && (binding.batch != None ==>
          && binding.requestSealed && binding.batch.value < |s.batches|
          && (binding.finished <==> s.batches[binding.batch.value].generation == 0)
          && (!binding.finished ==> WellFormed(s.batches[binding.batch.value], binding.maxRows)))
  }

  function Publications(s: State, c: Call): nat
    requires Exists(s, c)
  {
    if c.Publish? && CanPublish(s, c.binding, c.batch) then 1 else 0
  }

  /** A call that takes the batch away from a binding, or ends its use. */
  predicate Ends(c: Call, binding: nat) {
    c == Finish(binding) || c == Clear(binding) || c == Detach(binding)
  }

  /** A call that takes the generation away from a batch: its holder lets go of it, any holder,
      or its source rewrites it. */
  predicate TakesAway(s: State, c: Call, batch: nat)
    requires Exists(s, c)
  {
    match c
    case Finish(b) => s.bindings[b].batch == Some(batch) && !s.bindings[b].finished
    case Clear(b) => s.bindings[b].batch == Some(batch)
    case Detach(b) => s.bindings[b].batch == Some(batch)
    case Reuse(i, _) => i == batch
    case _ => false
  }

  /** A call in a state after n publications. */
  ghost predicate Legal(s: State, c: Call, n: nat) {
    Exists(s, c) && SetsNoGeneration(c) && Counted(s, n) && n + Publications(s, c) < GENERATIONS
  }

  /** A call of a source that keeps the rule, or of anyone else. */
  ghost predicate Orderly(s: State, c: Call, n: nat) {
    Legal(s, c, n) && SourceKeepsRules(s, c) && Inv(s, n)
  }

  /** Every call keeps the generations behind the counter. */
  lemma CountedKeeps(s: State, c: Call, n: nat)
    requires Legal(s, c, n)
    ensures Counted(Apply(s, c), n + Publications(s, c))
  {
    hide WellFormed, Increment;
    if c.Publish? && CanPublish(s, c.binding, c.batch) {
      PublicationNumber(s, n);
    }
  }

  lemma PublicationNumber(s: State, n: nat)
    requires s.next == (n + 1) % GENERATIONS && n + 1 < GENERATIONS
    ensures NextGeneration(s) == n + 1 && Increment(n + 1) == (n + 2) % GENERATIONS
  {}

  /** Only usability, size and words make a batch well-formed. */
  lemma GenerationIsNoPart(b: Batch, maxRows: int, g: nat)
    ensures WellFormed(b.(generation := g), maxRows) <==> WellFormed(b, maxRows)
  {}

  lemma DeselectedFits(b: Batch, row: nat, maxRows: int)
    requires WellFormed(b, maxRows) && row < |b.words|
    ensures WellFormed(b.(words := b.words[row := false]), maxRows)
  {}

  /** A binding and its batch that a call leaves alone stay sound. */
  lemma SoundStays(s: State, t: State, b: nat)
    requires b < |s.bindings| && b < |t.bindings| && Sound(s, b) && t.bindings[b] == s.bindings[b]
    requires s.bindings[b].batch != None ==>
               s.bindings[b].batch.value < |t.batches| && t.batches[s.bindings[b].batch.value] == s.batches[s.bindings[b].batch.value]
    ensures Sound(t, b)
  {}

  lemma PublishKeeps(s: State, b: nat, i: nat, n: nat)
    requires Orderly(s, Publish(b, i), n)
    ensures Inv(Apply(s, Publish(b, i)), n + Publications(s, Publish(b, i)))
  {
    hide WellFormed, Increment;
    if CanPublish(s, b, i) {
      var t := Apply(s, Publish(b, i));
      PublicationNumber(s, n);
      GenerationIsNoPart(s.batches[i], s.bindings[b].maxRows, n + 1);
      forall c | 0 <= c < |t.bindings|
        ensures Sound(t, c)
      {
        assert Sound(s, c);
        if c != b {
          SoundStays(s, t, c);
        }
      }
      forall k | 0 <= k < |t.batches| && Unheld(t, k)
        ensures t.batches[k].generation == 0
      {
        assert t.bindings[b].batch == Some(i);
        assert Unheld(s, k) by {
          forall c | 0 <= c < |s.bindings|
            ensures s.bindings[c].batch != Some(k)
          {
            assert c != b ==> t.bindings[c].batch == s.bindings[c].batch;
          }
        }
      }
    }
  }

  lemma FinishKeeps(s: State, b: nat, n: nat)
    requires Orderly(s, Finish(b), n)
    ensures Inv(Apply(s, Finish(b)), n)
  {
    hide WellFormed, Increment;
    var t := Apply(s, Finish(b));
    assert Sound(s, b);
    forall c | 0 <= c < |t.bindings|
      ensures Sound(t, c)
    {
      assert Sound(s, c);
      if c != b {
        SoundStays(s, t, c);
      }
    }
    forall k | 0 <= k < |t.batches| && Unheld(t, k)
      ensures t.batches[k].generation == 0
    {
      assert Unheld(s, k) by {
        forall c | 0 <= c < |s.bindings|
          ensures s.bindings[c].batch != Some(k)
        {
          assert t.bindings[c].batch == s.bindings[c].batch;
        }
      }
    }
  }

  lemma ReleaseKeeps(s: State, b: nat, n: nat)
    requires Orderly(s, Clear(b), n)
    ensures Inv(Released(s, b), n) && Released(s, b).bindings[b].batch == None
    ensures |Released(s, b).bindings| == |s.bindings|
  {
    hide WellFormed, Increment;
    var t := Released(s, b);
    assert Sound(s, b);
    forall c | 0 <= c < |t.bindings|
      ensures Sound(t, c)
    {
      assert Sound(s, c);
      if c != b {
        SoundStays(s, t, c);
      }
    }
    forall k | 0 <= k < |t.batches| && Unheld(t, k)
      ensures t.batches[k].generation == 0
    {
      if s.bindings[b].batch != Some(k) {
        assert Unheld(s, k) by {
          forall c | 0 <= c < |s.bindings|
            ensures s.bindings[c].batch != Some(k)
          {
            assert c != b ==> t.bindings[c].batch == s.bindings[c].batch;
          }
        }
      }
    }
  }

  /** Changing what a binding without a batch remembers, or a request, keeps the rest. */
  lemma BindingChanges(s: State, b: nat, binding: Binding, n: nat)
    requires Inv(s, n) && b < |s.bindings| && binding.batch == s.bindings[b].batch && binding.finished == s.bindings[b].finished
    requires binding.batch != None ==> binding.attached && binding.requestSealed && binding.maxRows == s.bindings[b].maxRows
    ensures Inv(s.(bindings := s.bindings[b := binding]), n)
  {
    hide WellFormed, Increment;
    var t := s.(bindings := s.bindings[b := binding]);
    assert Sound(s, b);
    forall c | 0 <= c < |t.bindings|
      ensures Sound(t, c)
    {
      assert Sound(s, c);
      if c != b {
        SoundStays(s, t, c);
      }
    }
    forall k | 0 <= k < |t.batches| && Unheld(t, k)
      ensures t.batches[k].generation == 0
    {
      assert Unheld(s, k) by {
        forall c | 0 <= c < |s.bindings|
          ensures s.bindings[c].batch != Some(k)
        {
          assert t.bindings[c].batch == s.bindings[c].batch;
        }
      }
    }
  }

  lemma AttachKeeps(s: State, n: nat)
    requires Orderly(s, Attach, n)
    ensures Inv(Apply(s, Attach), n)
  {
    hide WellFormed, Increment;
    var t := Apply(s, Attach);
    forall c | 0 <= c < |t.bindings|
      ensures Sound(t, c)
    {
      if c < |s.bindings| {
        assert Sound(s, c);
        SoundStays(s, t, c);
      }
    }
    forall k | 0 <= k < |t.batches| && Unheld(t, k)
      ensures t.batches[k].generation == 0
    {
      assert Unheld(s, k) by {
        forall c | 0 <= c < |s.bindings|
          ensures s.bindings[c].batch != Some(k)
        {
          assert t.bindings[c].batch == s.bindings[c].batch;
        }
      }
    }
  }

  /** Other bindings' batches: a batch changes without its generation, or is not held at all. */
  lemma BatchChanges(s: State, t: State, i: nat, n: nat)
    requires Inv(s, n) && i < |t.batches| && t.bindings == s.bindings && t.next == s.next && |t.batches| >= |s.batches|
    requires forall k | 0 <= k < |t.batches| && k != i :: k < |s.batches| && t.batches[k] == s.batches[k]
    requires if i < |s.batches| && !Unheld(s, i)
             then && t.batches[i].generation == s.batches[i].generation
                  && forall maxRows: int :: WellFormed(s.batches[i], maxRows) ==> WellFormed(t.batches[i], maxRows)
             else t.batches[i].generation == 0 && Unheld(s, i)
    ensures Inv(t, n)
  {
    hide WellFormed, Increment;
    forall c | 0 <= c < |t.bindings|
      ensures Sound(t, c)
    {
      assert Sound(s, c);
    }
    forall k | 0 <= k < |t.batches| && Unheld(t, k)
      ensures t.batches[k].generation == 0
    {
      assert Unheld(s, k);
    }
  }

  /** Every call keeps the invariant. */
  lemma ApplyKeeps(s: State, c: Call, n: nat)
    requires Orderly(s, c, n)
    ensures Inv(Apply(s, c), n + Publications(s, c))
  {
    hide WellFormed, Inv, Increment;
    match c
    case Attach => AttachKeeps(s, n);
    case Publish(b, i) => PublishKeeps(s, b, i, n);
    case Finish(b) => FinishKeeps(s, b, n);
    case Clear(b) => ReleaseKeeps(s, b, n);
    case Detach(b) =>
      ReleaseKeeps(s, b, n);
      var r := Released(s, b);
      BindingChanges(r, b, r.bindings[b].(attached := false), n);
    case SetRequest(b, maxRows) =>
      if !s.bindings[b].requestSealed && maxRows >= 0 {
        HeldIsSealed(s, b, n);
        BindingChanges(s, b, s.bindings[b].(maxRows := maxRows), n);
      }
    case Seal(b) => BindingChanges(s, b, s.bindings[b].(requestSealed := true), n);
    case Deselect(i, row) =>
      forall maxRows: int | WellFormed(s.batches[i], maxRows)
        ensures WellFormed(s.batches[i].(words := s.batches[i].words[row := false]), maxRows)
      {
        DeselectedFits(s.batches[i], row, maxRows);
      }
      if Unheld(s, i) {
        UnheldIsInactive(s, i, n);
      }
      BatchChanges(s, Apply(s, c), i, n);
    case Create(content) =>
      BeyondIsUnheld(s, n);
      BatchChanges(s, Apply(s, c), |s.batches|, n);
    case Reuse(i, content) => BatchChanges(s, Apply(s, c), i, n);
  }

  lemma HeldIsSealed(s: State, b: nat, n: nat)
    requires Inv(s, n) && b < |s.bindings| && !s.bindings[b].requestSealed
    ensures s.bindings[b].batch == None
  {
    assert Sound(s, b);
  }

  lemma UnheldIsInactive(s: State, i: nat, n: nat)
    requires Inv(s, n) && i < |s.batches| && Unheld(s, i)
    ensures s.batches[i].generation == 0
  {}

  lemma BeyondIsUnheld(s: State, n: nat)
    requires Inv(s, n)
    ensures Unheld(s, |s.batches|)
  {
    forall b | 0 <= b < |s.bindings|
      ensures s.bindings[b].batch != Some(|s.batches|)
    {
      assert Sound(s, b);
    }
  }

  // ----- what one call does to a view -----

  /** A binding holds its batch until it is finished, cleared or detached. */
  lemma HolderStays(s: State, c: Call, n: nat, b: nat)
    requires Legal(s, c, n) && Active(s, b) && !Ends(c, b)
    ensures Active(Apply(s, c), b) && Apply(s, c).bindings[b].batch == s.bindings[b].batch
  {
    hide WellFormed, Increment, NextGeneration;
    if c.Finish? || c.Clear? || c.Detach? {
      assert c.binding != b;
    }
  }

  /** Ending its use takes the generation away. */
  lemma EndTakesAway(s: State, c: Call, n: nat, b: nat)
    requires Legal(s, c, n) && Active(s, b) && Ends(c, b)
    ensures TakesAway(s, c, ViewOf(s, b).batch)
  {}

  /** An active batch keeps its generation until a call takes it away, and has none then. */
  lemma GenerationStep(s: State, c: Call, n: nat, i: nat)
    requires Legal(s, c, n) && i < |s.batches| && s.batches[i].generation != 0
    ensures i < |Apply(s, c).batches|
    ensures Apply(s, c).batches[i].generation == if TakesAway(s, c, i) then 0 else s.batches[i].generation
  {
    hide WellFormed, Increment, NextGeneration;
  }

  /** No call gives a batch a generation that was given out before. */
  lemma NoOldGeneration(s: State, c: Call, n: nat, i: nat, g: nat)
    requires Legal(s, c, n) && i < |Apply(s, c).batches| && 0 < g <= n && Apply(s, c).batches[i].generation == g
    ensures i < |s.batches| && s.batches[i].generation == g
  {
    hide WellFormed, Increment;
    if c.Publish? && CanPublish(s, c.binding, c.batch) {
      PublicationNumber(s, n);
    }
  }

  /** When sources keep the rule, only the holder itself ends its batch's publication. */
  lemma OnlyHolderEnds(s: State, c: Call, n: nat, b: nat)
    requires Orderly(s, c, n) && Active(s, b)
    ensures 0 < ViewOf(s, b).generation
    ensures TakesAway(s, c, ViewOf(s, b).batch) ==> Ends(c, b)
  {
    hide WellFormed;
    assert Sound(s, b);
  }

  // ----- runs -----

  /** A run of calls from the start of a backend. Nothing is asked of sources but that they
      leave the generation of a batch alone. */
  ghost predicate IsRun(states: seq<State>, calls: seq<Call>) {
    && |states| == |calls| + 1 && states[0] == State([], [], 1)
    && forall k | 0 <= k < |calls| ::
         Exists(states[k], calls[k]) && SetsNoGeneration(calls[k]) && states[k + 1] == Apply(states[k], calls[k])
  }

  /** A run whose sources wait for release. */
  ghost predicate RulesKept(states: seq<State>, calls: seq<Call>)
    requires IsRun(states, calls)
  {
    forall k | 0 <= k < |calls| :: SourceKeepsRules(states[k], calls[k])
  }

  /** The publications in the first calls of a run. */
  ghost function Published(states: seq<State>, calls: seq<Call>, k: nat): nat
    requires IsRun(states, calls) && k <= |calls|
  {
    if k == 0 then 0 else Published(states, calls, k - 1) + Publications(states[k - 1], calls[k - 1])
  }

  /** Every state of a run with fewer than 2^64 publications is counted. */
  lemma {:induction false} RunCounts(states: seq<State>, calls: seq<Call>, k: nat)
    requires IsRun(states, calls) && k <= |calls| && Published(states, calls, |calls|) < 0x1_0000_0000_0000_0000
    ensures Counted(states[k], Published(states, calls, k))
    ensures k < |calls| ==> Legal(states[k], calls[k], Published(states, calls, k))
  {
    hide Apply, Publications, Exists, Counted;
    if k == 0 {
      NothingYet();
    } else {
      RunCounts(states, calls, k - 1);
      CountedKeeps(states[k - 1], calls[k - 1], Published(states, calls, k - 1));
    }
    if k < |calls| {
      PublishedGrows(states, calls, k + 1, |calls|);
    }
  }

  /** Every state of a run whose sources keep the rule satisfies the invariant. */
  lemma {:induction false} RunKeeps(states: seq<State>, calls: seq<Call>, k: nat)
    requires IsRun(states, calls) && k <= |calls| && Published(states, calls, |calls|) < 0x1_0000_0000_0000_0000
    requires RulesKept(states, calls)
    ensures Inv(states[k], Published(states, calls, k))
    ensures k < |calls| ==> Orderly(states[k], calls[k], Published(states, calls, k))
  {
    hide Inv, Apply, Publications, SourceKeepsRules, Exists;
    RunCounts(states, calls, k);
    if k == 0 {
      NothingYet();
    } else {
      RunKeeps(states, calls, k - 1);
      ApplyKeeps(states[k - 1], calls[k - 1], Published(states, calls, k - 1));
    }
  }

  lemma {:induction false} PublishedGrows(states: seq<State>, calls: seq<Call>, j: nat, k: nat)
    requires IsRun(states, calls) && j <= k <= |calls|
    ensures Published(states, calls, j) <= Published(states, calls, k)
    decreases k
  {
    if j < k {
      PublishedGrows(states, calls, j, k - 1);
    }
  }

  lemma NothingYet()
    ensures Inv(State([], [], 1), 0)
  {}

  /** While a batch shows a generation that was given out before, it has shown it all along. */
  lemma {:induction false} GenerationHeld(states: seq<State>, calls: seq<Call>, i: nat, m: nat, j: nat, batch: nat,
                                          g: nat)
    requires IsRun(states, calls) && i <= m <= j <= |calls| && Published(states, calls, |calls|) < GENERATIONS
    requires 0 < g <= Published(states, calls, i)
    requires batch < |states[j].batches| && states[j].batches[batch].generation == g
    ensures batch < |states[m].batches| && states[m].batches[batch].generation == g
    decreases j
  {
    hide Apply, Publications, Exists, Legal, Published, Counted;
    if m < j {
      RunCounts(states, calls, j - 1);
      PublishedGrows(states, calls, i, j - 1);
      NoOldGeneration(states[j - 1], calls[j - 1], Published(states, calls, j - 1), batch, g);
      GenerationHeld(states, calls, i, m, j - 1, batch, g);
    }
  }

  /** A batch that no call takes the generation from keeps it. */
  lemma {:induction false} GenerationKept(states: seq<State>, calls: seq<Call>, i: nat, j: nat, batch: nat)
    requires IsRun(states, calls) && i <= j <= |calls| && Published(states, calls, |calls|) < GENERATIONS
    requires batch < |states[i].batches| && states[i].batches[batch].generation != 0
    requires forall k | i <= k < j :: !TakesAway(states[k], calls[k], batch)
    ensures batch < |states[j].batches| && states[j].batches[batch].generation == states[i].batches[batch].generation
    decreases j
  {
    hide Apply, Publications, Exists, Legal, Published, Counted, TakesAway;
    if i < j {
      GenerationKept(states, calls, i, j - 1, batch);
      RunCounts(states, calls, j - 1);
      GenerationStep(states[j - 1], calls[j - 1], Published(states, calls, j - 1), batch);
    }
  }

  /** While a batch shows the generation of a view, the binding that issued the view has held
      it unfinished all along. */
  lemma {:induction false} HeldWhileShown(states: seq<State>, calls: seq<Call>, i: nat, m: nat, j: nat, b: nat)
    requires IsRun(states, calls) && i <= m <= j <= |calls| && Published(states, calls, |calls|) < GENERATIONS
    requires Active(states[i], b) && ViewOf(states[i], b).generation != 0
    requires var v := ViewOf(states[i], b);
             v.batch < |states[j].batches| && states[j].batches[v.batch].generation == v.generation
    ensures Active(states[m], b) && ViewOf(states[m], b) == ViewOf(states[i], b)
    ensures m < j ==> !TakesAway(states[m], calls[m], ViewOf(states[i], b).batch) && !Ends(calls[m], b)
    decreases m
  {
    hide Apply, Publications, Exists, Legal, Published, TakesAway, Ends;
    var v := ViewOf(states[i], b);
    RunCounts(states, calls, i);
    GenerationHeld(states, calls, i, m, j, v.batch, v.generation);
    if i < m {
      HeldWhileShown(states, calls, i, m - 1, j, b);
      RunCounts(states, calls, m - 1);
      HolderStays(states[m - 1], calls[m - 1], Published(states, calls, m - 1), b);
    }
    if m < j {
      RunCounts(states, calls, m);
      GenerationHeld(states, calls, i, m + 1, j, v.batch, v.generation);
      GenerationStep(states[m], calls[m], Published(states, calls, m), v.batch);
      if Ends(calls[m], b) {
        EndTakesAway(states[m], calls[m], Published(states, calls, m), b);
      }
    }
  }

  /** Safety over every run, early republication included: a view is accepted only while the binding
      that issued it still holds that same publication unfinished, and only for a row that is
      selected. Exactly: if and only if no call has taken the generation from the batch since. */
  lemma ViewAcceptedIff(states: seq<State>, calls: seq<Call>, i: nat, j: nat, b: nat, row: int)
    requires IsRun(states, calls) && i <= j <= |calls| && Published(states, calls, |calls|) < 0x1_0000_0000_0000_0000
    requires Active(states[i], b)
    ensures var v := ViewOf(states[i], b);
            && (Accepts(states[j], v, row) ==>
                  forall k | i <= k <= j ::
                    && Active(states[k], b) && ViewOf(states[k], b) == v
                    && (k < j ==> !Ends(calls[k], b)))
            && (Accepts(states[j], v, row) <==>
                  && v.generation != 0 && (forall k | i <= k < j :: !TakesAway(states[k], calls[k], v.batch))
                  && v.batch < |states[j].batches| && Selected(states[j].batches[v.batch], row))
  {
    hide Apply, Publications, Exists, Legal, Published, Ends, Selected, TakesAway;
    var v := ViewOf(states[i], b);
    if Accepts(states[j], v, row) {
      forall k | i <= k <= j
        ensures Active(states[k], b) && ViewOf(states[k], b) == v
        ensures k < j ==> !Ends(calls[k], b) && !TakesAway(states[k], calls[k], v.batch)
      {
        HeldWhileShown(states, calls, i, k, j, b);
      }
    } else if v.generation != 0 && forall k | i <= k < j :: !TakesAway(states[k], calls[k], v.batch) {
      GenerationKept(states, calls, i, j, v.batch);
    }
  }

  /** When sources wait for release, only the holder decides: a view is accepted if and only if
      its binding has not been finished, cleared or detached since and the row is selected. */
  lemma ViewAcceptedUntilEnd(states: seq<State>, calls: seq<Call>, i: nat, j: nat, b: nat, row: int)
    requires IsRun(states, calls) && i <= j <= |calls| && Published(states, calls, |calls|) < 0x1_0000_0000_0000_0000
    requires RulesKept(states, calls) && Active(states[i], b)
    ensures var v := ViewOf(states[i], b);
            Accepts(states[j], v, row) <==>
              && (forall k | i <= k < j :: !Ends(calls[k], b))
              && v.batch < |states[j].batches| && Selected(states[j].batches[v.batch], row)
  {
    hide Inv, Apply, Publications, SourceKeepsRules, Exists, Legal, Published, Ends, Selected, TakesAway, RulesKept;
    var v := ViewOf(states[i], b);
    ViewAcceptedIff(states, calls, i, j, b, row);
    if forall k | i <= k < j :: !Ends(calls[k], b) {
      NothingTakesAway(states, calls, i, j, b);
    }
  }

  lemma {:induction false} NothingTakesAway(states: seq<State>, calls: seq<Call>, i: nat, j: nat, b: nat)
    requires IsRun(states, calls) && i <= j <= |calls| && Published(states, calls, |calls|) < GENERATIONS
    requires RulesKept(states, calls) && Active(states[i], b) && forall k | i <= k < j :: !Ends(calls[k], b)
    ensures ViewOf(states[i], b).generation != 0
    ensures Active(states[j], b) && ViewOf(states[j], b) == ViewOf(states[i], b)
    ensures forall k | i <= k < j :: !TakesAway(states[k], calls[k], ViewOf(states[i], b).batch)
    decreases j
  {
    hide Apply, Publications, SourceKeepsRules, Exists, Published, Ends, TakesAway, Inv, RulesKept;
    if i < j {
      NothingTakesAway(states, calls, i, j - 1, b);
      RunKeeps(states, calls, j - 1);
      OnlyHolderEnds(states[j - 1], calls[j - 1], Published(states, calls, j - 1), b);
      HolderStays(states[j - 1], calls[j - 1], Published(states, calls, j - 1), b);
      GenerationStep(states[j - 1], calls[j - 1], Published(states, calls, j - 1), ViewOf(states[i], b).batch);
    } else {
      RunKeeps(states, calls, i);
      HeldHasGeneration(states[i], Published(states, calls, i), b);
    }
  }

  lemma HeldHasGeneration(s: State, n: nat, b: nat)
    requires Inv(s, n) && Active(s, b)
    ensures ViewOf(s, b).generation != 0
  {
    assert Sound(s, b);
  }

  /** Why a source must wait for release: a batch published again after finish, before the first
      binding cleared it, loses its generation to that clear while the second binding still
      holds it. The view is then refused too early, never accepted too late. */
  lemma RepublishedTooEarly(s: State, content: Batch)
    requires s == State([content], [Binding(true, Some(0), true, true, 0), Binding(true, None, false, false, 0)], 2)
    requires WellFormed(content, 0) && content.generation == 0 && Selected(content, 0)
    ensures var t := Apply(s, Publish(1, 0));
            && Active(t, 1) && Accepts(t, ViewOf(t, 1), 0)
            && Active(Apply(t, Clear(0)), 1) && !Accepts(Apply(t, Clear(0)), ViewOf(t, 1), 0)
  {}

  // ----- the bridge's operations -----

  /** The state of one backend and the calls of the bridge API on it. */
  class Backend {
    var batches: seq<Batch>
    var bindings: seq<Binding>
    var next: nat

    function Now(): State
      reads this
    {
      State(batches, bindings, next)
    }

    constructor ()
      ensures Now() == State([], [], 1)
    {
      batches, bindings, next := [], [], 1;
    }

    /** attach_slot */
    method AttachSlot() returns (b: nat)
      modifies this
      ensures Now() == Apply(old(Now()), Attach) && b == |old(bindings)|
    {
      b := |bindings|;
      bindings := bindings + [Binding(true, None, false, false, 0)];
    }

    /** set_request: refused once the request is sealed. */
    method RequestRows(b: nat, maxRows: int) returns (ok: bool)
      requires Exists(Now(), SetRequest(b, maxRows))
      modifies `bindings
      ensures Now() == Apply(old(Now()), SetRequest(b, maxRows))
      ensures ok <==> !old(bindings)[b].requestSealed && maxRows >= 0
      ensures bindings == if ok then old(bindings)[b := old(bindings)[b].(maxRows := maxRows)] else old(bindings)
    {
      if bindings[b].requestSealed {
        return false;
      }
      if maxRows < 0 {
        return false;
      }
      bindings := bindings[b := bindings[b].(maxRows := maxRows)];
      ok := true;
    }

    /** seal_request */
    method SealRequest(b: nat)
      requires Exists(Now(), Seal(b))
      modifies `bindings
      ensures Now() == Apply(old(Now()), Seal(b))
    {
      bindings := bindings[b := bindings[b].(requestSealed := true)];
    }

    /** publish_batch */
    method PublishBatch(b: nat, i: nat) returns (ok: bool)
      requires Exists(Now(), Publish(b, i))
      modifies this
      ensures Now() == Apply(old(Now()), Publish(b, i))
      ensures ok <==> CanPublish(old(Now()), b, i)
      ensures ok <==>
                && old(bindings)[b].batch == None && old(batches)[i].generation == 0
                && old(batches)[i].usable && 0 < old(batches)[i].nrows <= |old(batches)[i].words| < old(batches)[i].nrows + 64
                && |old(batches)[i].words| % 64 == 0
                && (old(bindings)[b].maxRows > 0 ==> old(batches)[i].nrows <= old(bindings)[b].maxRows)
                && forall k | old(batches)[i].nrows <= k < |old(batches)[i].words| :: !old(batches)[i].words[k]
      ensures ok ==> batches[i].generation != 0 && bindings[b].batch == Some(i) && !bindings[b].finished
    {
      if bindings[b].batch != None {
        return false;
      }
      if !batches[i].usable || batches[i].nrows <= 0 || |batches[i].words| != (batches[i].nrows + WORD - 1) / WORD * WORD {
        return false;
      }
      if batches[i].generation != 0 {
        return false;
      }
      if bindings[b].maxRows > 0 && batches[i].nrows > bindings[b].maxRows {
        return false;
      }
      var row := batches[i].nrows;
      while row < |batches[i].words|
        invariant batches[i].nrows <= row <= |batches[i].words|
        invariant Now() == old(Now())
        invariant forall k | batches[i].nrows <= k < row :: !batches[i].words[k]
      {
        if batches[i].words[row] {
          return false;
        }
        row := row + 1;
      }
      bindings := bindings[b := bindings[b].(requestSealed := true)];
      var generation := next;
      next := Increment(next);
      if generation == 0 {
        generation := next;
        next := Increment(next);
      }
      batches := batches[i := batches[i].(generation := generation)];
      bindings := bindings[b := bindings[b].(batch := Some(i), finished := false)];
      ok := true;
    }

    /** finish */
    method FinishBatch(b: nat) returns (ok: bool)
      requires Exists(Now(), Finish(b))
      modifies `batches, `bindings
      ensures Now() == Apply(old(Now()), Finish(b))
      ensures ok <==> Active(old(Now()), b)
    {
      if bindings[b].batch == None || bindings[b].finished || bindings[b].batch.value >= |batches| {
        return false;
      }
      var i := bindings[b].batch.value;
      batches := batches[i := batches[i].(generation := 0)];
      bindings := bindings[b := bindings[b].(finished := true)];
      ok := true;
    }

    /** release_batch, which clear and detach_binding share. */
    method ReleaseBatch(b: nat)
      requires b < |bindings|
      modifies `batches, `bindings
      ensures Now() == Released(old(Now()), b)
    {
      if bindings[b].batch == None || bindings[b].batch.value >= |batches| {
        return;
      }
      var i := bindings[b].batch.value;
      bindings := bindings[b := bindings[b].(batch := None, finished := false)];
      batches := batches[i := batches[i].(generation := 0)];
    }

    method ClearBatch(b: nat)
      requires Exists(Now(), Clear(b))
      modifies `batches, `bindings
      ensures Now() == Apply(old(Now()), Clear(b))
    {
      ReleaseBatch(b);
    }

    method DetachBinding(b: nat)
      requires Exists(Now(), Detach(b))
      modifies `batches, `bindings
      ensures Now() == Apply(old(Now()), Detach(b))
    {
      ReleaseBatch(b);
      bindings := bindings[b := bindings[b].(attached := false)];
    }

    /** get_row_view: an error without an active batch. */
    method GetRowView(b: nat) returns (view: Option<View>)
      requires b < |bindings|
      ensures view == if Active(Now(), b) then Some(ViewOf(Now(), b)) else None
    {
      if bindings[b].batch == None || bindings[b].finished || bindings[b].batch.value >= |batches| {
        return None;
      }
      var i := bindings[b].batch.value;
      view := Some(View(i, batches[i].generation));
    }

    /** pg_batch_row_view_select */
    method RowViewSelect(view: View, row: int) returns (ok: bool)
      ensures ok <==> Accepts(Now(), view, row)
      ensures ok <==>
                && view.batch < |batches| && view.generation != 0 && batches[view.batch].generation == view.generation
                && 0 <= row < batches[view.batch].nrows && row < |batches[view.batch].words| && batches[view.batch].words[row]
    {
      if view.batch >= |batches| || view.generation == 0 || batches[view.batch].generation != view.generation {
        return false;
      }
      if row < 0 || row >= batches[view.batch].nrows || row >= |batches[view.batch].words| {
        return false;
      }
      ok := batches[view.batch].words[row];
    }

    /** select_row: the binding itself, no view. */
    method SelectRow(b: nat, row: int) returns (ok: bool)
      requires b < |bindings|
      ensures ok <==> Active(Now(), b) && Selected(batches[bindings[b].batch.value], row)
    {
      if bindings[b].batch == None || bindings[b].finished || bindings[b].batch.value >= |batches| {
        return false;
      }
      var batch := batches[bindings[b].batch.value];
      if row < 0 || row >= batch.nrows || row >= |batch.words| {
        return false;
      }
      ok := batch.words[row];
    }
  }
}
