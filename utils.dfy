/** The two members of the controller's `utils` object that carry logic: the in-place
    Fisher-Yates shuffle and the dispatch of the "next" button. `Math.random` is an
    arbitrary function `pick`; the index drawn at step `i` is `pick(i) % (i + 1)`, which
    can be every value of `[0, i]` and nothing else. */
module Utils {
  import opened JsValue
  import opened SurveyTask

  /** `Math.floor(Math.random() * (i + 1))`. */
  function Draw(pick: nat -> nat, i: nat): (j: nat)
    ensures j <= i
  {
    pick(i) % (i + 1)
  }

  /** The two assignments through `temp`: exchange positions `i` and `j`. */
  function Swap<T>(s: seq<T>, i: nat, j: nat): (r: seq<T>)
    requires i < |s| && j < |s|
    ensures |r| == |s|
  {
    s[i := s[j]][j := s[i]]
  }

  /** The shuffle loop run for the indices `i, i - 1, ..., 1`, in that order. */
  function ShuffleDown<T>(s: seq<T>, pick: nat -> nat, i: nat): (r: seq<T>)
    requires i < |s|
    ensures |r| == |s|
    decreases i
  {
    if i == 0 then s else ShuffleDown(Swap(s, i, Draw(pick, i)), pick, i - 1)
  }

  /** What `shuffleArray` leaves in an array that held `s`. */
  function Shuffled<T>(s: seq<T>, pick: nat -> nat): (r: seq<T>)
    ensures |r| == |s|
    ensures |s| <= 1 ==> r == s
  {
    if |s| == 0 then s else ShuffleDown(s, pick, |s| - 1)
  }

  /** Exchanging two positions keeps every element, as often as before. */
  lemma SwapPermutes<T>(s: seq<T>, i: nat, j: nat)
    requires i < |s| && j < |s|
    ensures multiset(Swap(s, i, j)) == multiset(s)
  {
    var t := s[i := s[j]];
    assert t[j] == s[j];
    assert multiset(t) == multiset(s) - multiset{s[i]} + multiset{s[j]};
    assert multiset(t[j := s[i]]) == multiset(t) - multiset{s[j]} + multiset{s[i]};
  }

  lemma {:induction false} ShuffleDownPermutes<T>(s: seq<T>, pick: nat -> nat, i: nat)
    requires i < |s|
    ensures multiset(ShuffleDown(s, pick, i)) == multiset(s)
    decreases i
  {
    if i > 0 {
      var j := Draw(pick, i);
      SwapPermutes(s, i, j);
      ShuffleDownPermutes(Swap(s, i, j), pick, i - 1);
    }
  }

  /** Whatever `Math.random` returns, a shuffle is a permutation: same length, same
      elements, each as often as before. */
  lemma ShuffledIsPermutation<T>(s: seq<T>, pick: nat -> nat)
    ensures |Shuffled(s, pick)| == |s|
    ensures multiset(Shuffled(s, pick)) == multiset(s)
  {
    if |s| > 0 {
      ShuffleDownPermutes(s, pick, |s| - 1);
    }
  }

  /** `utils.shuffleArray`: in place, from the last index down to 1; an array of one
      element returns at once, an empty one never enters the loop. */
  method ShuffleArray<T>(a: array<T>, pick: nat -> nat)
    modifies a
    ensures a[..] == Shuffled(old(a[..]), pick)
  {
    ghost var s0 := a[..];
    if a.Length == 1 {
      return;
    }
    var i := a.Length - 1;
    while i > 0
      invariant -1 <= i < a.Length
      invariant i < 0 ==> a.Length == 0
      invariant i >= 0 ==> ShuffleDown(a[..], pick, i) == Shuffled(s0, pick)
    {
      ghost var before := a[..];
      var j := Draw(pick, i);
      var temp := a[i];
      a[i] := a[j];
      a[j] := temp;
      assert a[..] == Swap(before, i, j);
      assert ShuffleDown(before, pick, i) == ShuffleDown(a[..], pick, i - 1);
      i := i - 1;
    }
  }

  /** `utils.make_next_button`: no button when `next_button_hide` is truthy; otherwise a
      button whose click calls the screen's `submit_fn` when one was passed, and
      `submit({})` when none was. */
  function MakeNextButton(hidden: Option<Value>, hasSubmitFn: bool): (b: NextButton)
    ensures b == NoButton <==> Truthy(hidden)
    ensures b.Button? ==> (b.onClick == SubmitFn <==> hasSubmitFn)
  {
    if Truthy(hidden) then NoButton
    else if hasSubmitFn then Button(SubmitFn)
    else Button(SubmitEmpty)
  }
}
