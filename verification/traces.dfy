/** Observations over a trace of view calls: the messages shown and the last value displayed. */
module Traces {
  import opened Optional
  import opened SetupContract

  /** The informational messages of a trace, in the order they were shown. */
  function Infos(t: seq<ViewEvent>): (ms: seq<Msg>)
    ensures |ms| <= |t|
  {
    if |t| == 0 then []
    else if t[0].ShowInformation? then [t[0].msg] + Infos(t[1..])
    else Infos(t[1..])
  }

  /** A trace with no informational call shows no message. */
  lemma {:induction false} InfosNone(t: seq<ViewEvent>)
    requires forall i :: 0 <= i < |t| ==> !t[i].ShowInformation?
    ensures Infos(t) == []
  {
    if |t| != 0 {
      InfosNone(t[1..]);
    }
  }

  lemma {:induction false} InfosAppend(a: seq<ViewEvent>, b: seq<ViewEvent>)
    ensures Infos(a + b) == Infos(a) + Infos(b)
  {
    if |a| == 0 {
      assert a + b == b;
    } else {
      assert (a + b)[1..] == a[1..] + b;
      InfosAppend(a[1..], b);
    }
  }

  /** The byte count of the last size shown in `t`, if any size was shown. */
  function LastSize(t: seq<ViewEvent>): (r: Option<int>)
    ensures r.Some? ==> ShowSizePerMin(r.value) in t
    ensures r.None? <==> forall i :: 0 <= i < |t| ==> !t[i].ShowSizePerMin?
  {
    if |t| == 0 then None
    else if t[|t| - 1].ShowSizePerMin? then Some(t[|t| - 1].bytes)
    else LastSize(t[..|t| - 1])
  }

  lemma {:induction false} LastSizeAppend(a: seq<ViewEvent>, b: seq<ViewEvent>)
    ensures LastSize(a + b) == if LastSize(b).Some? then LastSize(b) else LastSize(a)
  {
    if |b| == 0 {
      assert a + b == a;
    } else {
      assert (a + b)[..|a + b| - 1] == a + b[..|b| - 1];
      LastSizeAppend(a, b[..|b| - 1]);
    }
  }

  /** Whether the bitrate selector was last shown (true) or hidden (false), if either happened. */
  function SelectorVisible(t: seq<ViewEvent>): (r: Option<bool>)
    ensures r == Some(true) ==> ShowBitrateSelector in t
    ensures r == Some(false) ==> HideBitrateSelector in t
    ensures r.None? <==> ShowBitrateSelector !in t && HideBitrateSelector !in t
  {
    if |t| == 0 then None
    else
      var last := t[|t| - 1];
      assert forall e :: e in t <==> e == last || e in t[..|t| - 1];
      if last.ShowBitrateSelector? then Some(true)
      else if last.HideBitrateSelector? then Some(false)
      else SelectorVisible(t[..|t| - 1])
  }

  lemma {:induction false} SelectorVisibleAppend(a: seq<ViewEvent>, b: seq<ViewEvent>)
    ensures SelectorVisible(a + b) == if SelectorVisible(b).Some? then SelectorVisible(b) else SelectorVisible(a)
  {
    if |b| == 0 {
      assert a + b == a;
    } else {
      assert (a + b)[..|a + b| - 1] == a + b[..|b| - 1];
      SelectorVisibleAppend(a, b[..|b| - 1]);
    }
  }
}
