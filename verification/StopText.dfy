/** Stop-string search over the generated text (src/core/sequence_state.cpp:9-30). */
module StopText {
  import opened Types

  predicate OccursAt(s: string, text: string, i: nat) {
    i + |s| <= |text| && text[i..i + |s|] == s
  }

  /** A non-empty stop string starts at position `i`. */
  predicate StopAt(stops: seq<string>, text: string, i: nat) {
    exists k :: 0 <= k < |stops| && stops[k] != "" && OccursAt(stops[k], text, i)
  }

  /** No non-empty stop string occurs anywhere in `text`. */
  ghost predicate Clean(stops: seq<string>, text: string) {
    forall i: nat :: i <= |text| ==> !StopAt(stops, text, i)
  }

  function EarliestFrom(stops: seq<string>, text: string, i: nat): (r: Option<nat>)
    ensures r.Some? ==> i <= r.value <= |text| && StopAt(stops, text, r.value)
    ensures r.Some? ==> forall j: nat :: i <= j < r.value ==> !StopAt(stops, text, j)
    ensures r.None? ==> forall j: nat :: i <= j <= |text| ==> !StopAt(stops, text, j)
    decreases |text| + 1 - i
  {
    if i > |text| then None
    else if StopAt(stops, text, i) then Some(i)
    else EarliestFrom(stops, text, i + 1)
  }

  /** The earliest position at which any stop string starts. */
  function EarliestStop(stops: seq<string>, text: string): (r: Option<nat>) {
    EarliestFrom(stops, text, 0)
  }

  function MaxStopLen(stops: seq<string>): (m: nat)
    ensures forall k :: 0 <= k < |stops| ==> |stops[k]| <= m
  {
    if stops == [] then 0 else Max(MaxStopLen(DropLast(stops)), |Last(stops)|)
  }

  /** How much of `text` may be handed out while a stop string could still complete. */
  function SafePrefix(stops: seq<string>, text: string): (n: nat)
    ensures n <= |text|
  {
    var hold := MaxStopLen(stops);
    if hold == 0 then |text|
    else if |text| >= hold - 1 then |text| - (hold - 1)
    else 0
  }

  lemma OccursAtPrefix(s: string, text: string, n: nat, i: nat)
    requires n <= |text| && OccursAt(s, text[..n], i)
    ensures OccursAt(s, text, i)
  {
    assert text[..n][i..i + |s|] == text[i..i + |s|];
  }

  lemma StopAtPrefix(stops: seq<string>, text: string, n: nat, i: nat)
    requires n <= |text| && StopAt(stops, text[..n], i)
    ensures StopAt(stops, text, i) && i < n
  {
    var k :| 0 <= k < |stops| && stops[k] != "" && OccursAt(stops[k], text[..n], i);
    OccursAtPrefix(stops[k], text, n, i);
  }

  /** Truncating a text at or before its first match leaves no match. */
  lemma CleanPrefix(stops: seq<string>, text: string, n: nat)
    requires n <= |text|
    requires forall i: nat :: i < n ==> !StopAt(stops, text, i)
    ensures Clean(stops, text[..n])
  {
    forall i: nat | i <= n
      ensures !StopAt(stops, text[..n], i)
    {
      if StopAt(stops, text[..n], i) {
        StopAtPrefix(stops, text, n, i);
      }
    }
  }

  /** The hold-back is long enough: a match completed by new text never starts inside
      what had already been released. */
  lemma NewMatchIsHeldBack(stops: seq<string>, text: string, more: string, i: nat)
    requires Clean(stops, text) && StopAt(stops, text + more, i)
    ensures SafePrefix(stops, text) <= i
  {
    var k :| 0 <= k < |stops| && stops[k] != "" && OccursAt(stops[k], text + more, i);
    var s := stops[k];
    assert |s| <= MaxStopLen(stops);
    if i + |s| <= |text| {
      MatchInside(stops, text, more, i, k);
    }
  }

  lemma MatchInside(stops: seq<string>, text: string, more: string, i: nat, k: nat)
    requires k < |stops| && stops[k] != "" && OccursAt(stops[k], text + more, i) && i + |stops[k]| <= |text|
    ensures StopAt(stops, text, i)
  {
    assert (text + more)[i..i + |stops[k]|] == text[i..i + |stops[k]|];
  }

  lemma SafePrefixGrows(stops: seq<string>, text: string, more: string)
    ensures SafePrefix(stops, text) <= SafePrefix(stops, text + more)
  {
  }

  /** `std::string::find` for a non-empty needle. */
  method Find(text: string, s: string) returns (r: Option<nat>)
    requires s != ""
    ensures r.Some? ==> OccursAt(s, text, r.value) && forall j: nat :: j < r.value ==> !OccursAt(s, text, j)
    ensures r.None? ==> forall j: nat :: !OccursAt(s, text, j)
  {
    var i: nat := 0;
    while i + |s| <= |text|
      invariant forall j: nat :: j < i ==> !OccursAt(s, text, j)
    {
      if text[i..i + |s|] == s {
        return Some(i);
      }
      i := i + 1;
    }
    return None;
  }

  /** The scan over stop strings finds the same position as the scan over text positions. */
  method FindEarliestStop(text: string, stops: seq<string>) returns (best: Option<nat>)
    ensures best == EarliestStop(stops, text)
  {
    best := None;
    for k := 0 to |stops|
      invariant best.Some? ==> best.value <= |text| && StopAt(stops[..k], text, best.value)
      invariant forall j: nat :: (best.None? || j < best.value) ==> !StopAt(stops[..k], text, j)
    {
      StopAtExtend(stops, k, text);
      if stops[k] != "" {
        var at := Find(text, stops[k]);
        if at.Some? && (best.None? || at.value < best.value) {
          best := at;
        }
      }
      var done := stops[..k + 1];
      forall j: nat | best.None? || j < best.value
        ensures !StopAt(done, text, j)
      {
        assert !StopAt(stops[..k], text, j);
      }
    }
    assert stops[..|stops|] == stops;
  }

  lemma StopAtExtend(stops: seq<string>, k: nat, text: string)
    requires k < |stops|
    ensures forall j: nat :: StopAt(stops[..k + 1], text, j) <==>
      StopAt(stops[..k], text, j) || (stops[k] != "" && OccursAt(stops[k], text, j))
  {
    forall j: nat
      ensures StopAt(stops[..k + 1], text, j) <==>
        StopAt(stops[..k], text, j) || (stops[k] != "" && OccursAt(stops[k], text, j))
    {
      if StopAt(stops[..k], text, j) {
        var m :| 0 <= m < k && stops[..k][m] != "" && OccursAt(stops[..k][m], text, j);
        assert stops[..k + 1][m] == stops[m];
      }
      if stops[k] != "" && OccursAt(stops[k], text, j) {
        assert stops[..k + 1][k] == stops[k];
      }
      if StopAt(stops[..k + 1], text, j) {
        var m :| 0 <= m < k + 1 && stops[..k + 1][m] != "" && OccursAt(stops[..k + 1][m], text, j);
        assert m < k ==> stops[..k][m] == stops[m];
      }
    }
  }

  method FindMaxStopLen(stops: seq<string>) returns (m: nat)
    ensures m == MaxStopLen(stops)
  {
    m := 0;
    for k := 0 to |stops|
      invariant m == MaxStopLen(stops[..k])
    {
      assert DropLast(stops[..k + 1]) == stops[..k];
      m := Max(m, |stops[k]|);
    }
    assert stops[..|stops|] == stops;
  }
}
