/** Field extraction from a delimited line (split_string), together with the
    substring search it relies on (std::string::find). */
module Split {
  import opened Failures

  /** The delimiter `d` occurs in `s` starting at position `i`. */
  predicate OccursAt(s: string, d: string, i: nat)
  {
    i + |d| <= |s| && forall j :: 0 <= j < |d| ==> s[i + j] == d[j]
  }

  /** std::string::find: the position of the first occurrence of `d` in `s`
      that starts at or after `from`; None stands for npos. */
  function Find(s: string, d: string, from: nat): (r: Option<nat>)
    ensures r.Some? ==> from <= r.value && r.value + |d| <= |s|
    decreases |s| + 1 - from
  {
    if from + |d| > |s| then None
    else if OccursAt(s, d, from) then Some(from)
    else Find(s, d, from + 1)
  }

  /** Find returns an occurrence, none before it, and npos only when there is
      no occurrence at all. */
  lemma {:induction false} FindSpec(s: string, d: string, from: nat)
    ensures Find(s, d, from).Some? ==> OccursAt(s, d, Find(s, d, from).value)
    ensures Find(s, d, from).Some? ==> forall i :: from <= i < Find(s, d, from).value ==> !OccursAt(s, d, i)
    ensures Find(s, d, from).None? ==> forall i :: from <= i ==> !OccursAt(s, d, i)
    decreases |s| + 1 - from
  {
    if from + |d| <= |s| && !OccursAt(s, d, from) {
      FindSpec(s, d, from + 1);
    }
  }

  /** The search position after one turn of split_string's loop: one past the
      next delimiter, or 0 when there is none, because npos + 1 wraps round
      to 0 in size_t. */
  function Advance(s: string, d: string, last: nat): nat
  {
    match Find(s, d, last)
    case None => 0
    case Some(i) => i + 1
  }

  /** The search position after `n` turns of the loop. */
  function StartAfter(s: string, d: string, n: nat): nat
  {
    if n == 0 then 0 else Advance(s, d, StartAfter(s, d, n - 1))
  }

  /** What split_string returns for field `index`: the text from the search
      position up to the next delimiter, or to the end when there is none.
      substr fails when the start lies past the end, which only an empty
      delimiter can cause. A negative index makes no turn of the loop. */
  function SplitField(s: string, d: string, index: int): Result<string>
  {
    var last := StartAfter(s, d, if index < 0 then 0 else index);
    if last > |s| then Err(SubstringOutOfRange)
    else match Find(s, d, last)
      case None => Ok(s[last..])
      case Some(f) => Ok(s[last..f])
  }

  /** split_string: the loop moves the search position past `index`
      delimiters, then the field up to the next one is cut out. */
  method SplitString(str: string, delimiter: string, index: int) returns (r: Result<string>)
    ensures r == SplitField(str, delimiter, index)
    ensures r.Ok? && |delimiter| > 0 ==> forall i :: !OccursAt(r.value, delimiter, i)
  {
    var lastMatchIndex: nat := 0;
    var i := 0;
    while i < index
      invariant 0 <= i <= (if index < 0 then 0 else index)
      invariant lastMatchIndex == StartAfter(str, delimiter, i)
    {
      var found := Find(str, delimiter, lastMatchIndex);
      lastMatchIndex := if found.None? then 0 else found.value + 1;
      i := i + 1;
    }
    if lastMatchIndex > |str| {
      return Err(SubstringOutOfRange);
    }
    var finalIndex := Find(str, delimiter, lastMatchIndex);
    r := match finalIndex
      case None => Ok(str[lastMatchIndex..])
      case Some(f) => Ok(str[lastMatchIndex..f]);
    if |delimiter| > 0 {
      FieldHasNoDelimiter(str, delimiter, index);
    }
  }

  /** A field never contains the delimiter. */
  lemma FieldHasNoDelimiter(s: string, d: string, index: int)
    requires |d| > 0
    ensures SplitField(s, d, index).Ok? ==> forall i :: !OccursAt(SplitField(s, d, index).value, d, i)
  {
    var last := StartAfter(s, d, if index < 0 then 0 else index);
    if last <= |s| {
      var found := Find(s, d, last);
      FindSpec(s, d, last);
      var end := if found.None? then |s| else found.value;
      var r := s[last..end];
      assert SplitField(s, d, index).value == r;
      forall i: nat | OccursAt(r, d, i)
        ensures false
      {
        OccursInSlice(s, d, last, end, i);
      }
    }
  }

  /** An occurrence inside s[lo..hi] is an occurrence in `s` that starts
      before `hi`. */
  lemma OccursInSlice(s: string, d: string, lo: nat, hi: nat, i: nat)
    requires lo <= hi <= |s| && |d| > 0
    requires OccursAt(s[lo..hi], d, i)
    ensures OccursAt(s, d, lo + i) && lo + i < hi
  {
  }

  /** Field 0 is the text before the first delimiter, or the whole line when
      there is no delimiter. */
  lemma FirstField(s: string, d: string)
    ensures Find(s, d, 0).None? ==> SplitField(s, d, 0) == Ok(s)
    ensures Find(s, d, 0).Some? ==> SplitField(s, d, 0) == Ok(s[..Find(s, d, 0).value])
  {
  }

  /** A one-character delimiter occurs exactly where that character is. */
  lemma OccursSingle(s: string, c: char, p: nat)
    requires p < |s|
    ensures OccursAt(s, [c], p) <==> s[p] == c
  {
    if s[p] == c {
      forall j | 0 <= j < 1
        ensures s[p + j] == [c][j]
      {
        assert j == 0;
      }
    } else {
      assert s[p + 0] != [c][0];
    }
  }

  /** Number of occurrences of the character `c` in `s` from position `p` on. */
  function CountFrom(s: string, c: char, p: nat): nat
    decreases |s| - p
  {
    if p >= |s| then 0 else (if s[p] == c then 1 else 0) + CountFrom(s, c, p + 1)
  }

  /** With a one-character delimiter, the search from `p` finds the next
      occurrence, past which one occurrence fewer remains; no occurrence is
      found exactly when none remains. */
  lemma {:induction false} FindCounts(s: string, c: char, p: nat)
    requires p <= |s|
    ensures Find(s, [c], p).Some? ==>
      Find(s, [c], p).value < |s| && CountFrom(s, c, p) == 1 + CountFrom(s, c, Find(s, [c], p).value + 1)
    ensures Find(s, [c], p).None? <==> CountFrom(s, c, p) == 0
    decreases |s| - p
  {
    if p < |s| {
      OccursSingle(s, c, p);
      if s[p] != c {
        FindCounts(s, c, p + 1);
      }
    }
  }

  /** After n <= m turns, where m counts the delimiters, the search position
      lies just past the n-th delimiter. */
  lemma {:induction false} StartAfterCounts(s: string, c: char, n: nat)
    requires n <= CountFrom(s, c, 0)
    ensures StartAfter(s, [c], n) <= |s|
    ensures CountFrom(s, c, StartAfter(s, [c], n)) == CountFrom(s, c, 0) - n
  {
    if n > 0 {
      StartAfterCounts(s, c, n - 1);
      FindCounts(s, c, StartAfter(s, [c], n - 1));
    }
  }

  /** Turn m + 1, where m counts the delimiters, finds none and sends the
      search back to position 0. */
  lemma ReturnsToStart(s: string, c: char)
    ensures StartAfter(s, [c], CountFrom(s, c, 0) + 1) == 0
  {
    var m := CountFrom(s, c, 0);
    StartAfterCounts(s, c, m);
    FindCounts(s, c, StartAfter(s, [c], m));
  }

  /** The wrap-around: the fields repeat with period m + 1, so an index past
      the last field names one counted again from the start. */
  lemma FieldsWrapAround(s: string, c: char, k: nat)
    ensures SplitField(s, [c], k + CountFrom(s, c, 0) + 1) == SplitField(s, [c], k)
  {
    ReturnsToStart(s, c);
    StartAfterPeriodic(s, [c], CountFrom(s, c, 0) + 1, k);
  }

  /** Once the search position is back at 0, it repeats. */
  lemma {:induction false} StartAfterPeriodic(s: string, d: string, period: nat, k: nat)
    requires StartAfter(s, d, period) == 0
    ensures StartAfter(s, d, k + period) == StartAfter(s, d, k)
  {
    if k > 0 {
      StartAfterPeriodic(s, d, period, k - 1);
      assert StartAfter(s, d, k + period) == Advance(s, d, StartAfter(s, d, (k - 1) + period));
    }
  }
}
