/** The signaler registry: how a signaler is evicted from it, and the case
    list the wait loop selects over. */
module Registry {

  /** A registered signaler, known to the coordinator only by identity. */
  type SignalerId = nat

  /** The channel a select case receives from: a signaler's control-function
      channel, or the worker's completion channel. NilChannel is the zero
      value of a freshly allocated case. */
  datatype Channel = NilChannel | SignalerChannel(owner: SignalerId) | IteratorDone

  /** Direction of a select case; only receiving is used. DirUnset is the
      zero value of a freshly allocated case. */
  datatype SelectDir = DirUnset | SelectRecv

  datatype SelectCase = SelectCase(dir: SelectDir, ch: Channel)

  const ZeroCase: SelectCase := SelectCase(DirUnset, NilChannel)

  /** The case list for a registry: case i receives from signaler i, and the
      one extra, last case receives from the completion channel. */
  predicate CasesMatch(cases: seq<SelectCase>, sigs: seq<SignalerId>)
  {
    && |cases| == |sigs| + 1
    && (forall i :: 0 <= i < |sigs| ==> cases[i] == SelectCase(SelectRecv, SignalerChannel(sigs[i])))
    && cases[|sigs|] == SelectCase(SelectRecv, IteratorDone)
  }

  /** No signaler is registered twice. */
  predicate Distinct(sigs: seq<SignalerId>)
  {
    forall i, j :: 0 <= i < j < |sigs| ==> sigs[i] != sigs[j]
  }

  /** Swap-with-last removal: slot i receives the last element and the
      sequence is truncated by one; an index past the end leaves it as is. */
  function SwapRemove(s: seq<SignalerId>, i: nat): (r: seq<SignalerId>)
    ensures i < |s| ==> |r| == |s| - 1
    ensures i < |s| - 1 ==> r[i] == s[|s| - 1]
    ensures i < |s| ==> forall k :: 0 <= k < |r| && k != i ==> r[k] == s[k]
    ensures i >= |s| ==> r == s
  {
    if i < |s| then s[i := s[|s| - 1]][..|s| - 1] else s
  }

  /** Removal takes exactly one occurrence of the evicted signaler out of the
      registry and keeps every other one. */
  lemma {:induction false} SwapRemoveMultiset(s: seq<SignalerId>, i: nat)
    requires i < |s|
    ensures multiset(SwapRemove(s, i)) == multiset(s) - multiset{s[i]}
  {
    var last := |s| - 1;
    var t := s[i := s[last]];
    assert multiset(t) == multiset(s) - multiset{s[i]} + multiset{s[last]};
    assert t == t[..last] + [t[last]];
    assert multiset(t) == multiset(t[..last]) + multiset{s[last]};
    assert SwapRemove(s, i) == t[..last];
    forall v
      ensures multiset(t[..last])[v] == (multiset(s) - multiset{s[i]})[v]
    {
      assert multiset(t)[v] == multiset(t[..last])[v] + multiset{s[last]}[v];
    }
  }

  /** With each signaler registered once, evicting the one at index i forgets
      exactly that signaler: it is no longer in the registry, every other
      signaler still is, and the registry stays duplicate-free. */
  lemma EvictionForgetsOnlyThatSignaler(s: seq<SignalerId>, i: nat)
    requires i < |s| && Distinct(s)
    ensures s[i] !in SwapRemove(s, i)
    ensures forall k :: 0 <= k < |s| && k != i ==> s[k] in SwapRemove(s, i)
    ensures Distinct(SwapRemove(s, i))
  {
  }

  /** A signaler evicted from the registry is never selected on again: no case
      rebuilt from the remaining registry receives from its channel, while
      every other signaler keeps a case of its own. */
  lemma EvictedChannelNotSelected(s: seq<SignalerId>, i: nat, cases: seq<SelectCase>)
    requires i < |s| && Distinct(s)
    requires CasesMatch(cases, SwapRemove(s, i))
    ensures forall k :: 0 <= k < |cases| ==> cases[k].ch != SignalerChannel(s[i])
    ensures forall j :: 0 <= j < |s| && j != i ==>
              SelectCase(SelectRecv, SignalerChannel(s[j])) in cases[..|cases| - 1]
  {
  }
}
