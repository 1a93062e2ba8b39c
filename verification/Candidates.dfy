/** Candidate items with their retrieval signals, and how two of them merge. The retrieval
    orchestrator and the heuristic ranker carry the same merge code. */
module Candidates {

  datatype Reason = Reason(reasonType: int, entityType: int, entityId: nat, score: real, description: string)
  datatype Signal = Signal(retriever: string, score: real, reasons: seq<Reason>)
  datatype Candidate = Candidate(
    itemId: nat, itemType: int, authorId: nat,
    retriever: string, score: real, reasons: seq<Reason>, signals: seq<Signal>)

  const ITEM_TYPE_UNSPECIFIED := 0

  // ----- folds over signals ------------------------------------------------------------------

  function TotalScore(signals: seq<Signal>): real {
    if signals == [] then 0.0
    else TotalScore(signals[..|signals| - 1]) + signals[|signals| - 1].score
  }

  function AllReasons(signals: seq<Signal>): seq<Reason> {
    if signals == [] then []
    else AllReasons(signals[..|signals| - 1]) + signals[|signals| - 1].reasons
  }

  /** The non-empty retriever names in order of first appearance. */
  function Names(signals: seq<Signal>): (r: seq<string>)
    ensures forall n :: n in r <==> n != "" && exists i :: 0 <= i < |signals| && signals[i].retriever == n
  {
    if signals == [] then []
    else
      var last := signals[|signals| - 1];
      var front := signals[..|signals| - 1];
      var r := Names(front);
      assert forall i :: 0 <= i < |front| ==> front[i] == signals[i];
      if last.retriever == "" || last.retriever in r then r else r + [last.retriever]
  }

  function Join(names: seq<string>): string {
    if names == [] then ""
    else
      var last, front := names[|names| - 1], Join(names[..|names| - 1]);
      if last == "" then front else if front == "" then last else front + "," + last
  }

  /** The legacy fields as the fold over the signals. */
  function Rebuild(c: Candidate): Candidate {
    c.(retriever := Join(Names(c.signals)), score := TotalScore(c.signals), reasons := AllReasons(c.signals))
  }

  /** The signals a candidate contributes: its own, or one made from its legacy fields. */
  function Effective(c: Candidate): (r: seq<Signal>)
    ensures r != []
  {
    if c.signals != [] then c.signals else [Signal(c.retriever, c.score, c.reasons)]
  }

  function Normalize(c: Candidate): Candidate {
    Rebuild(c.(signals := Effective(c)))
  }

  /** Add a signal to the first one of the same retriever, or at the end. */
  function MergeSignal(target: seq<Signal>, s: Signal): (r: seq<Signal>)
    ensures r != []
  {
    if target == [] then [s]
    else if target[0].retriever == s.retriever
    then [target[0].(score := target[0].score + s.score, reasons := target[0].reasons + s.reasons)] + target[1..]
    else [target[0]] + MergeSignal(target[1..], s)
  }

  function MergeSignals(target: seq<Signal>, source: seq<Signal>): seq<Signal> {
    if source == [] then target
    else MergeSignal(MergeSignals(target, source[..|source| - 1]), source[|source| - 1])
  }

  function MergeInto(source: Candidate, target: Candidate): Candidate {
    Rebuild(target.(
      itemType := if target.itemType == ITEM_TYPE_UNSPECIFIED then source.itemType else target.itemType,
      authorId := if target.authorId == 0 then source.authorId else target.authorId,
      signals := MergeSignals(target.signals, Effective(source))))
  }

  // ----- the code ------------------------------------------------------------------------------

  method JoinRetrieverNames(names: seq<string>) returns (joined: string)
    ensures joined == Join(names)
  {
    joined := "";
    for i := 0 to |names|
      invariant joined == Join(names[..i])
    {
      assert names[..i + 1][..i] == names[..i];
      if names[i] == "" {
        continue;
      }
      if joined != "" {
        joined := joined + ",";
      }
      joined := joined + names[i];
    }
    assert names[..|names|] == names;
  }

  lemma {:induction false} OneSignalFolds(name: string, score: real, reasons: seq<Reason>)
    ensures var s := [Signal(name, score, reasons)];
            Join(Names(s)) == name && TotalScore(s) == score && AllReasons(s) == reasons
  {
    var s := [Signal(name, score, reasons)];
    assert s[..0] == [];
    assert Names(s) == if name == "" then [] else [name];
    assert [name][..0] == [];
  }

  /** Afterwards there is a signal. Signals a candidate already has stay as they are; one
      without any keeps its legacy fields, which are then the fold over its single signal. */
  method EnsureRetrievalSignals(c: Candidate) returns (r: Candidate)
    ensures r.signals != [] && r == c.(signals := r.signals)
    ensures c.signals != [] ==> r == c
    ensures c.signals == [] ==> |r.signals| == 1 && Rebuild(r) == r
  {
    if |c.signals| > 0 {
      return c;
    }
    r := c.(signals := [Signal(c.retriever, c.score, c.reasons)]);
    OneSignalFolds(c.retriever, c.score, c.reasons);
  }

  method RebuildLegacyCandidateFields(c: Candidate) returns (r: Candidate)
    ensures r == Rebuild(c)
  {
    var score, names: seq<string>, reasons: seq<Reason> := 0.0, [], [];
    var seen: set<string> := {};
    for i := 0 to |c.signals|
      invariant score == TotalScore(c.signals[..i]) && names == Names(c.signals[..i])
      invariant reasons == AllReasons(c.signals[..i])
      invariant forall n :: n in seen <==> n in names
    {
      var signal := c.signals[i];
      assert c.signals[..i + 1][..i] == c.signals[..i];
      score := score + signal.score;
      if signal.retriever != "" && signal.retriever !in seen {
        seen := seen + {signal.retriever};
        names := names + [signal.retriever];
      }
      reasons := reasons + signal.reasons;
    }
    assert c.signals[..|c.signals|] == c.signals;
    var retriever := JoinRetrieverNames(names);
    r := c.(retriever := retriever, score := score, reasons := reasons);
  }

  /** A single signal that folds back to its candidate's legacy fields is made of them. */
  lemma {:induction false} OneSignal(c: Candidate)
    requires |c.signals| == 1 && Rebuild(c) == c
    ensures c.signals == [Signal(c.retriever, c.score, c.reasons)]
  {
    var s := c.signals[0];
    assert c.signals == [s];
    OneSignalFolds(s.retriever, s.score, s.reasons);
  }

  method NormalizeCandidate(c: Candidate) returns (r: Candidate)
    ensures r == Normalize(c)
  {
    r := EnsureRetrievalSignals(c);
    if c.signals == [] { OneSignal(r); }
    r := RebuildLegacyCandidateFields(r);
  }

  /** The merge is decided by the first signal of the same retriever. */
  lemma {:induction false} MergeSignalAt(target: seq<Signal>, s: Signal, i: nat)
    requires i <= |target| && forall j :: 0 <= j < i ==> target[j].retriever != s.retriever
    requires i < |target| ==> target[i].retriever == s.retriever
    ensures MergeSignal(target, s) ==
            if i == |target| then target + [s]
            else target[i := target[i].(score := target[i].score + s.score, reasons := target[i].reasons + s.reasons)]
  {
    if target != [] && i > 0 {
      MergeSignalAt(target[1..], s, i - 1);
      assert target == [target[0]] + target[1..];
    }
  }

  method MergeRetrievalSignal(source: Signal, target: seq<Signal>) returns (r: seq<Signal>)
    ensures r == MergeSignal(target, source)
  {
    for i := 0 to |target|
      invariant forall j :: 0 <= j < i ==> target[j].retriever != source.retriever
    {
      if target[i].retriever == source.retriever {
        MergeSignalAt(target, source, i);
        r := target[i := target[i].(
          score := target[i].score + source.score, reasons := target[i].reasons + source.reasons)];
        return;
      }
    }
    MergeSignalAt(target, source, |target|);
    r := target + [source];
  }

  method MergeCandidate(source: Candidate, target: Candidate) returns (r: Candidate)
    ensures r == MergeInto(source, target)
  {
    var normalized := NormalizeCandidate(source);
    r := target;
    if r.itemType == ITEM_TYPE_UNSPECIFIED && normalized.itemType != ITEM_TYPE_UNSPECIFIED {
      r := r.(itemType := normalized.itemType);
    }
    if r.authorId == 0 && normalized.authorId != 0 {
      r := r.(authorId := normalized.authorId);
    }
    var signals := target.signals;
    for i := 0 to |normalized.signals|
      invariant signals == MergeSignals(target.signals, normalized.signals[..i])
    {
      assert normalized.signals[..i + 1][..i] == normalized.signals[..i];
      signals := MergeRetrievalSignal(normalized.signals[i], signals);
    }
    assert normalized.signals[..|normalized.signals|] == normalized.signals;
    r := RebuildLegacyCandidateFields(r.(signals := signals));
  }

  // ----- what a merge conserves ------------------------------------------------------------------

  /** The summed score of one retriever. */
  function ScoreOf(signals: seq<Signal>, name: string): real {
    if signals == [] then 0.0
    else
      var last := signals[|signals| - 1];
      ScoreOf(signals[..|signals| - 1], name) + (if last.retriever == name then last.score else 0.0)
  }

  function ReasonBag(signals: seq<Signal>): multiset<Reason> {
    if signals == [] then multiset{}
    else ReasonBag(signals[..|signals| - 1]) + multiset(signals[|signals| - 1].reasons)
  }

  lemma {:induction false} ScoreConcat(a: seq<Signal>, b: seq<Signal>, name: string)
    ensures ScoreOf(a + b, name) == ScoreOf(a, name) + ScoreOf(b, name)
  {
    if b == [] {
      assert a + b == a;
    } else {
      ScoreConcat(a, b[..|b| - 1], name);
      assert (a + b)[..|a + b| - 1] == a + b[..|b| - 1];
    }
  }

  lemma {:induction false} TotalConcat(a: seq<Signal>, b: seq<Signal>)
    ensures TotalScore(a + b) == TotalScore(a) + TotalScore(b)
  {
    if b == [] {
      assert a + b == a;
    } else {
      TotalConcat(a, b[..|b| - 1]);
      assert (a + b)[..|a + b| - 1] == a + b[..|b| - 1];
    }
  }

  lemma {:induction false} ReasonsConcat(a: seq<Signal>, b: seq<Signal>)
    ensures ReasonBag(a + b) == ReasonBag(a) + ReasonBag(b)
  {
    if b == [] {
      assert a + b == a;
    } else {
      var init, last := b[..|b| - 1], b[|b| - 1];
      ReasonsConcat(a, init);
      assert (a + b)[..|a + b| - 1] == a + init && (a + b)[|a + b| - 1] == last;
      assert ReasonBag(a + b) == ReasonBag(a + init) + multiset(last.reasons);
    }
  }

  lemma {:induction false} FoldsConcat(a: seq<Signal>, b: seq<Signal>, name: string)
    ensures ScoreOf(a + b, name) == ScoreOf(a, name) + ScoreOf(b, name)
    ensures TotalScore(a + b) == TotalScore(a) + TotalScore(b)
    ensures ReasonBag(a + b) == ReasonBag(a) + ReasonBag(b)
  {
    ScoreConcat(a, b, name);
    TotalConcat(a, b);
    ReasonsConcat(a, b);
  }

  lemma {:induction false} FoldsOne(s: Signal, name: string)
    ensures ScoreOf([s], name) == if s.retriever == name then s.score else 0.0
    ensures TotalScore([s]) == s.score && ReasonBag([s]) == multiset(s.reasons)
  {
    assert [s][..0] == [];
  }

  lemma {:induction false} FoldsNone(name: string)
    ensures ScoreOf([], name) == 0.0 && TotalScore([]) == 0.0 && ReasonBag([]) == multiset{}
  {
  }

  lemma {:induction false} MergeSignalConserves(target: seq<Signal>, s: Signal, name: string)
    ensures ScoreOf(MergeSignal(target, s), name) == ScoreOf(target, name) + ScoreOf([s], name)
    ensures TotalScore(MergeSignal(target, s)) == TotalScore(target) + s.score
    ensures ReasonBag(MergeSignal(target, s)) == ReasonBag(target) + multiset(s.reasons)
  {
    hide ScoreOf, TotalScore, ReasonBag;
    FoldsOne(s, name);
    FoldsNone(name);
    if target != [] {
      var h, t := target[0], target[1..];
      assert target == [h] + t;
      FoldsConcat([h], t, name);
      FoldsOne(h, name);
      if h.retriever == s.retriever {
        var m := h.(score := h.score + s.score, reasons := h.reasons + s.reasons);
        FoldsConcat([m], t, name);
        FoldsOne(m, name);
      } else {
        MergeSignalConserves(t, s, name);
        FoldsConcat([h], MergeSignal(t, s), name);
      }
    }
  }

  lemma {:induction false} MergeSignalsConserves(target: seq<Signal>, source: seq<Signal>, name: string)
    ensures ScoreOf(MergeSignals(target, source), name) == ScoreOf(target, name) + ScoreOf(source, name)
    ensures TotalScore(MergeSignals(target, source)) == TotalScore(target) + TotalScore(source)
    ensures ReasonBag(MergeSignals(target, source)) == ReasonBag(target) + ReasonBag(source)
  {
    if source != [] {
      var n := |source| - 1;
      MergeSignalsConserves(target, source[..n], name);
      MergeSignalConserves(MergeSignals(target, source[..n]), source[n], name);
      FoldsOne(source[n], name);
    }
  }

  lemma {:induction false} ReasonsAsBag(signals: seq<Signal>)
    ensures multiset(AllReasons(signals)) == ReasonBag(signals)
  {
    if signals != [] {
      ReasonsAsBag(signals[..|signals| - 1]);
    }
  }

  lemma {:induction false} MergeSignalsNonEmpty(target: seq<Signal>, source: seq<Signal>)
    requires source != [] || target != []
    ensures MergeSignals(target, source) != []
  {
  }
}
