/** `helper.Paginate`: the page of a result list that a list usecase returns. */
module Helper {
  import opened Errors

  function Min(a: int, b: int): int { if a <= b then a else b }

  /** What `Paginate(s, page, pageSize)` yields: the slice `s[start..end]` with
      `start = (page - 1) * pageSize` and `end = start + pageSize` clamped to `|s|`,
      the empty slice when `start` is past the end, and `None` where the Go code panics
      (a negative length for the fresh slice, or a negative index into `s`). */
  function Window<T>(s: seq<T>, page: int, pageSize: int): Option<seq<T>>
  {
    var start := (page - 1) * pageSize;
    if start >= |s| then Some([])
    else
      var end := Min(start + pageSize, |s|);
      if end - start < 0 then None
      else if end - start == 0 then Some([])
      else if start < 0 then None
      else Some(s[start..end])
  }

  /** The Go code: compute the bounds, clamp the end, then copy element by element into
      a freshly made slice; `slice` itself is only read. */
  method Paginate<T>(slice: seq<T>, page: int, pageSize: int) returns (r: Option<seq<T>>)
    ensures r == Window(slice, page, pageSize)
  {
    var startIndex := (page - 1) * pageSize;
    var endIndex := startIndex + pageSize;
    if startIndex >= |slice| {
      return Some([]);
    }
    if endIndex > |slice| {
      endIndex := |slice|;
    }
    if endIndex - startIndex < 0 {
      // reflect.MakeSlice panics on a negative length
      return None;
    }
    var resultSlice: seq<T> := [];
    var i := 0;
    while i < endIndex - startIndex
      invariant 0 <= i <= endIndex - startIndex
      invariant i > 0 ==> 0 <= startIndex
      invariant resultSlice == if i == 0 then [] else slice[startIndex..startIndex + i]
    {
      if startIndex + i < 0 {
        // slice[startIndex+i] is out of range
        return None;
      }
      resultSlice := resultSlice + [slice[startIndex + i]];
      i := i + 1;
    }
    return Some(resultSlice);
  }

  lemma MulNonNegative(a: int, b: int)
    requires a >= 0 && b >= 0
    ensures a * b >= 0
  {
  }

  /** With `page >= 1` and `pageSize >= 0` Paginate never panics; its result is empty
      when `start` is past the end, never longer than `pageSize`, and otherwise the
      contiguous window of `s` that starts at `start` and ends at `min(start + pageSize, |s|)`. */
  lemma WindowInRange<T>(s: seq<T>, page: int, pageSize: int)
    requires page >= 1 && pageSize >= 0
    ensures Window(s, page, pageSize).Some?
    ensures var r := Window(s, page, pageSize).value;
            var start := (page - 1) * pageSize;
            && start >= 0
            && |r| <= pageSize
            && (start >= |s| ==> r == [])
            && (start < |s| ==> |r| == Min(start + pageSize, |s|) - start)
            && (forall i :: 0 <= i < |r| ==> r[i] == s[start + i])
  {
    MulNonNegative(page - 1, pageSize);
  }

  /** Whatever the arguments, a page Paginate returns is a contiguous run of `s`
      starting at `start`. */
  lemma WindowIsSlice<T>(s: seq<T>, page: int, pageSize: int)
    requires Window(s, page, pageSize).Some?
    ensures var w := Window(s, page, pageSize).value;
            var start := (page - 1) * pageSize;
            w == [] || (0 <= start && start + |w| <= |s| && w == s[start..start + |w|])
  {
  }

  lemma MulMonotone(a: int, b: int, c: int)
    requires a <= b && c >= 0
    ensures a * c <= b * c
  {
    MulNonNegative(b - a, c);
  }

  /** With a positive page size, a page number below 1 on a non-empty slice makes
      `start` negative and the first copy indexes out of range. */
  lemma NonPositivePagePanics<T>(s: seq<T>, page: int, pageSize: int)
    requires page <= 0 && pageSize > 0 && |s| > 0
    ensures Window(s, page, pageSize) == None
  {
    var start := (page - 1) * pageSize;
    assert start + pageSize == page * pageSize;
    MulNonNegative(-page, pageSize);
    assert start + pageSize <= 0;
  }

  /** Pages 1..k of `s`, concatenated. */
  function Pages<T>(s: seq<T>, pageSize: int, k: nat): seq<T>
  {
    if k == 0 then []
    else
      match Window(s, k, pageSize)
      case Some(w) => Pages(s, pageSize, k - 1) + w
      case None => Pages(s, pageSize, k - 1)
  }

  /** The first k pages together are the prefix of `s` of length `min(k * pageSize, |s|)`. */
  lemma {:induction false} PagesArePrefix<T>(s: seq<T>, pageSize: int, k: nat)
    requires pageSize > 0
    ensures k * pageSize >= 0
    ensures Pages(s, pageSize, k) == s[..Min(k * pageSize, |s|)]
  {
    MulNonNegative(k, pageSize);
    if k > 0 {
      PagesArePrefix(s, pageSize, k - 1);
      WindowInRange(s, k, pageSize);
      assert (k - 1) * pageSize + pageSize == k * pageSize;
      var start := (k - 1) * pageSize;
      var w := Window(s, k, pageSize).value;
      if start >= |s| {
        assert w == [];
      } else {
        var end := Min(start + pageSize, |s|);
        assert w == s[start..end];
        assert s[..start] + s[start..end] == s[..end];
      }
    }
  }

  /** For `pageSize > 0`, pages `1..ceil(|s| / pageSize)` concatenate back to `s`. */
  lemma PagesCoverSlice<T>(s: seq<T>, pageSize: int)
    requires pageSize > 0
    ensures Pages(s, pageSize, (|s| + pageSize - 1) / pageSize) == s
  {
    var q := (|s| + pageSize - 1) / pageSize;
    var rem := (|s| + pageSize - 1) % pageSize;
    assert q * pageSize + rem == |s| + pageSize - 1;
    assert q * pageSize >= |s|;
    PagesArePrefix(s, pageSize, q);
  }
}
