/** The conversation a workflow run accumulates, and the loops its nodes use to pick
    one message out of it: a forward scan that stops at the first hit, a backward
    scan that stops at the first hit from the end, and a backward scan that never
    stops, so that the hit nearest the start is the one it keeps. */
module Messages {
  import opened Wrappers
  import opened Text
  import opened Seqs

  /** `HumanMessage`, `AIMessage` and `SystemMessage`, with their `content`. */
  datatype Message = Human(content: string) | AI(content: string) | System(content: string)

  predicate IsHuman(m: Message) { m.Human? }

  /** An `AIMessage` whose content contains `marker`. */
  predicate IsAIWith(marker: string, m: Message) { m.AI? && Contains(m.content, marker) }

  /** `for msg in messages: if p(msg): ...; break` */
  method ScanForward<T>(s: seq<T>, p: T -> bool) returns (r: Option<nat>)
    ensures r == FirstIndex(s, p)
  {
    r := None;
    var i := 0;
    while i < |s|
      invariant 0 <= i <= |s|
      invariant forall j :: 0 <= j < i ==> !p(s[j])
    {
      if p(s[i]) {
        r := Some(i);
        FirstIndexUnique(s, p, i);
        return;
      }
      i := i + 1;
    }
    FirstIndexUnique(s, p, |s|);
  }

  /** `for msg in reversed(messages): if p(msg): ...; break` */
  method ScanBackward<T>(s: seq<T>, p: T -> bool) returns (r: Option<nat>)
    ensures r == LastIndex(s, p)
  {
    r := None;
    var i := |s|;
    while i > 0
      invariant 0 <= i <= |s|
      invariant forall j :: i <= j < |s| ==> !p(s[j])
    {
      i := i - 1;
      if p(s[i]) {
        r := Some(i);
        LastIndexUnique(s, p, i);
        return;
      }
    }
    LastIndexUnique(s, p, |s|);
  }

  /** `for msg in reversed(messages): if p(msg): found = msg` with no `break`: every
      later hit is overwritten by an earlier one, so the scan ends on the first. */
  method ScanBackwardToEnd<T>(s: seq<T>, p: T -> bool) returns (r: Option<nat>)
    ensures r == FirstIndex(s, p)
  {
    r := None;
    var i := |s|;
    while i > 0
      invariant 0 <= i <= |s|
      invariant r.Some? ==> i <= r.value < |s| && p(s[r.value]) && forall j :: i <= j < r.value ==> !p(s[j])
      invariant r.None? ==> forall j :: i <= j < |s| ==> !p(s[j])
    {
      i := i - 1;
      if p(s[i]) {
        r := Some(i);
      }
    }
    match r
    case Some(k) => FirstIndexUnique(s, p, k);
    case None => FirstIndexUnique(s, p, |s|);
  }

  /** `FirstIndex` is determined by its contract: the index `k` of a hit with no hit
      before it, or `|s|` when there is none. */
  lemma FirstIndexUnique<T>(s: seq<T>, p: T -> bool, k: nat)
    requires k <= |s| && forall j :: 0 <= j < k ==> !p(s[j])
    requires k < |s| ==> p(s[k])
    ensures FirstIndex(s, p) == if k < |s| then Some(k) else None
  {
    var f := FirstIndex(s, p);
    if f.Some? {
      assert !(f.value < k);
    }
  }

  /** `LastIndex` is determined by its contract: the index `k` of a hit with no hit
      after it, or `|s|` when there is none. */
  lemma LastIndexUnique<T>(s: seq<T>, p: T -> bool, k: nat)
    requires k <= |s|
    requires k < |s| ==> p(s[k]) && forall j :: k < j < |s| ==> !p(s[j])
    requires k == |s| ==> forall j :: 0 <= j < |s| ==> !p(s[j])
    ensures LastIndex(s, p) == if k < |s| then Some(k) else None
  {
    var l := LastIndex(s, p);
    if l.Some? && k < |s| {
      assert !(l.value < k) && !(k < l.value);
    }
  }

  /** The content of the message at `r`, or `default` when the scan found none. */
  function ContentAt(s: seq<Message>, r: Option<nat>, default: string): (c: string)
    requires r.Some? ==> r.value < |s|
    ensures r.Some? ==> c == s[r.value].content
    ensures r.None? ==> c == default
  {
    match r
    case Some(i) => s[i].content
    case None => default
  }
}
