/** The lenient JSON extractor of the workflow engine (`extractSunoProperties` and
    `extractPersonaInspo`, which are the same scan): find the first `{` and the `}` that
    brings the brace depth back to zero, and hand that substring to a JSON decoder.

    JSON decoding is not modelled: the decoder is a parameter `parse` that either yields a
    value or fails.

    The code as written counts every `}` of the response, also those before the first `{`.
    `SourceObjectSpan`, `SourceExtracted` and `SourceExtractObject` model that scan, and the
    engine uses them; `StrayCloseBreaksSpan` shows what it gets wrong. `ObjectSpan`, `Extracted`
    and `ExtractObject` are the corrected scan, which counts braces from the first `{` on and
    provably finds the first balanced object. The two agree on every response in which no `}`
    comes before the first `{` (`NoStrayClose`). */
module Extract {
  import opened Base

  /** A half-open range `[start, end)` of a response. */
  datatype Span = Span(start: nat, end: nat)

  /** How a character moves the brace depth. */
  function Delta(c: char): int {
    if c == '{' then 1 else if c == '}' then -1 else 0
  }

  /** The brace depth at the end of `t`: the number of `{` in `t` minus the number of `}`. */
  function Balance(t: string): int {
    if t == [] then 0 else Balance(t[..|t| - 1]) + Delta(t[|t| - 1])
  }

  /** No `{` occurs before index `k`. */
  predicate NoOpenBefore(s: string, k: nat)
    requires k <= |s|
  {
    forall j :: 0 <= j < k ==> s[j] != '{'
  }

  /** `sp` covers the first balanced object of `s`: it starts at the first `{`, its depth is
      positive on every proper prefix and back to zero at its end. */
  predicate IsFirstObject(s: string, sp: Span) {
    && sp.start < sp.end <= |s|
    && s[sp.start] == '{'
    && NoOpenBefore(s, sp.start)
    && Balance(s[sp.start..sp.end]) == 0
    && forall k :: sp.start < k < sp.end ==> Balance(s[sp.start..k]) > 0
  }

  /** `s` has no `{`, or its first `{` is never closed. */
  predicate HasNoObject(s: string) {
    forall st :: 0 <= st < |s| && s[st] == '{' && NoOpenBefore(s, st) ==>
      forall k :: st < k <= |s| ==> Balance(s[st..k]) > 0
  }

  /** The corrected scan from index `i`, with `start` the first `{` seen so far (-1 if none)
      and `depth` the depth counted from it. */
  function Scan(s: string, i: nat, start: int, depth: int): Option<Span>
    requires i <= |s| && -1 <= start
    decreases |s| - i
  {
    if i == |s| then None
    else if s[i] == '{' then
      Scan(s, i + 1, if start == -1 then i else start, depth + 1)
    else if s[i] == '}' && start != -1 then
      if depth - 1 == 0 then Some(Span(start, i + 1)) else Scan(s, i + 1, start, depth - 1)
    else
      Scan(s, i + 1, start, depth)
  }

  /** The span the corrected extractor hands to the decoder, if any. */
  function ObjectSpan(s: string): Option<Span> {
    Scan(s, 0, -1, 0)
  }

  lemma BalanceStep(s: string, start: nat, i: nat)
    requires start <= i < |s|
    ensures Balance(s[start..i + 1]) == Balance(s[start..i]) + Delta(s[i])
  {
    assert s[start..i + 1][..i - start] == s[start..i];
  }

  /** What the scan's loop state means at index `i`: `start` is the first `{` (or -1 when
      there is none yet), `depth` the depth counted from it, positive all along. */
  predicate ScanState(s: string, i: nat, start: int, depth: int)
    requires i <= |s|
  {
    && (start == -1 ==> NoOpenBefore(s, i) && depth == 0)
    && (start != -1 ==>
          && 0 <= start < i && s[start] == '{' && NoOpenBefore(s, start)
          && depth == Balance(s[start..i])
          && forall k :: start < k <= i ==> Balance(s[start..k]) > 0)
  }

  /** At the end of the response, a scan that is still open means there is no object. */
  lemma ScanStateAtEnd(s: string, start: int, depth: int)
    requires ScanState(s, |s|, start, depth)
    ensures HasNoObject(s)
  {
    forall st | 0 <= st < |s| && s[st] == '{' && NoOpenBefore(s, st)
      ensures forall k :: st < k <= |s| ==> Balance(s[st..k]) > 0
    {
      assert st == start;
    }
  }

  lemma ScanStateOpen(s: string, i: nat, start: int, depth: int)
    requires i < |s| && s[i] == '{' && ScanState(s, i, start, depth)
    ensures ScanState(s, i + 1, if start == -1 then i else start, depth + 1)
  {
    var start' := if start == -1 then i else start;
    BalanceStep(s, start', i);
    if start == -1 {
      assert s[i..i] == [];
    }
  }

  lemma ScanStateClose(s: string, i: nat, start: int, depth: int)
    requires i < |s| && s[i] == '}' && start != -1 && ScanState(s, i, start, depth)
    ensures depth - 1 == 0 ==> IsFirstObject(s, Span(start, i + 1))
    ensures depth - 1 != 0 ==> ScanState(s, i + 1, start, depth - 1)
  {
    BalanceStep(s, start, i);
  }

  lemma ScanStateOther(s: string, i: nat, start: int, depth: int)
    requires i < |s| && s[i] != '{' && !(s[i] == '}' && start != -1) && ScanState(s, i, start, depth)
    ensures ScanState(s, i + 1, start, depth)
  {
    if start != -1 {
      BalanceStep(s, start, i);
    }
  }

  /** `r` is a correct answer for `s`: the first balanced object, or `None` when there is none. */
  predicate FindsFirstObject(s: string, r: Option<Span>) {
    && (r.Some? ==> IsFirstObject(s, r.value))
    && (r.None? ==> HasNoObject(s))
  }

  /** The scan ends in the first balanced object, or in `None` exactly when there is none. */
  lemma {:induction false} ScanSpec(s: string, i: nat, start: int, depth: int)
    requires i <= |s| && ScanState(s, i, start, depth)
    ensures FindsFirstObject(s, Scan(s, i, start, depth))
    decreases |s| - i
  {
    if i == |s| {
      ScanStateAtEnd(s, start, depth);
    } else if s[i] == '{' {
      var start' := if start == -1 then i else start;
      assert Scan(s, i, start, depth) == Scan(s, i + 1, start', depth + 1);
      ScanStateOpen(s, i, start, depth);
      ScanSpec(s, i + 1, start', depth + 1);
    } else if s[i] == '}' && start != -1 {
      ScanStateClose(s, i, start, depth);
      if depth - 1 != 0 {
        assert Scan(s, i, start, depth) == Scan(s, i + 1, start, depth - 1);
        ScanSpec(s, i + 1, start, depth - 1);
      } else {
        assert Scan(s, i, start, depth) == Some(Span(start, i + 1));
      }
    } else {
      assert Scan(s, i, start, depth) == Scan(s, i + 1, start, depth);
      ScanStateOther(s, i, start, depth);
      ScanSpec(s, i + 1, start, depth);
    }
  }

  /** The corrected extractor finds the first balanced object, and finds nothing only when
      there is none. */
  lemma ObjectSpanSpec(s: string)
    ensures ObjectSpan(s).Some? ==> IsFirstObject(s, ObjectSpan(s).value)
    ensures ObjectSpan(s).None? ==> HasNoObject(s)
  {
    ScanSpec(s, 0, -1, 0);
  }

  /** A response has at most one first balanced object. */
  lemma FirstObjectUnique(s: string, a: Span, b: Span)
    requires IsFirstObject(s, a) && IsFirstObject(s, b)
    ensures a == b
  {
  }

  /** Whenever there is a first balanced object, the corrected scan finds it. */
  lemma FirstObjectFound(s: string)
    ensures forall sp :: IsFirstObject(s, sp) ==> ObjectSpan(s) == Some(sp)
  {
    ObjectSpanSpec(s);
    forall sp | IsFirstObject(s, sp) ensures ObjectSpan(s) == Some(sp) {
      if ObjectSpan(s).Some? {
        FirstObjectUnique(s, sp, ObjectSpan(s).value);
      }
    }
  }

  /** The extracted text starts with `{`, ends with `}` and holds as many `{` as `}`. */
  lemma ObjectShape(s: string, sp: Span)
    requires IsFirstObject(s, sp)
    ensures s[sp.start] == '{' && s[sp.end - 1] == '}'
    ensures Balance(s[sp.start..sp.end]) == 0
  {
    BalanceStep(s, sp.start, sp.end - 1);
  }

  /** `s` is exactly one balanced object. */
  predicate IsObject(s: string) {
    && s != [] && s[0] == '{'
    && Balance(s) == 0
    && forall k :: 0 < k < |s| ==> Balance(s[..k]) > 0
  }

  /** A response that is exactly one balanced object is extracted whole. */
  lemma WholeObject(s: string)
    requires IsObject(s)
    ensures ObjectSpan(s) == Some(Span(0, |s|))
  {
    ObjectSpanSpec(s);
    assert NoOpenBefore(s, 0);
    assert s[0..|s|] == s;
    match ObjectSpan(s)
    case None =>
      assert false;
    case Some(sp) =>
      assert sp.start == 0;
      if sp.end < |s| {
        assert false;
      }
  }

  /** Extraction is idempotent: extracting again from the extracted text gives all of it. */
  lemma ExtractAgain(s: string, sp: Span)
    requires ObjectSpan(s) == Some(sp)
    ensures sp.start < sp.end <= |s| && ObjectSpan(s[sp.start..sp.end]) == Some(Span(0, sp.end - sp.start))
  {
    ObjectSpanSpec(s);
    ObjectShape(s, sp);
    var t := s[sp.start..sp.end];
    forall k | 0 < k < |t| ensures Balance(t[..k]) > 0 {
      assert t[..k] == s[sp.start..sp.start + k];
    }
    WholeObject(t);
  }

  /** The extractor's error when no decodable object is found. */
  const NO_JSON := "no valid JSON found in response"

  /** What the extractor returns: the decoded first balanced object, or the extractor's error. */
  function Extracted<T>(response: string, parse: string -> Option<T>): (r: Result<T>)
    ensures r.Err? ==> r.error == NO_JSON
    ensures r.Ok? ==> exists sp :: IsFirstObject(response, sp) && parse(response[sp.start..sp.end]) == Some(r.value)
    ensures forall sp :: IsFirstObject(response, sp) && parse(response[sp.start..sp.end]).Some? ==>
      r == Ok(parse(response[sp.start..sp.end]).value)
  {
    ObjectSpanSpec(response);
    FirstObjectFound(response);
    match ObjectSpan(response)
    case Some(sp) =>
      (match parse(response[sp.start..sp.end])
       case Some(v) => Ok(v)
       case None => Err(NO_JSON))
    case None => Err(NO_JSON)
  }

  /** Decoding the extracted object of a response that is one object is decoding the response. */
  lemma ExtractedWhole<T>(response: string, parse: string -> Option<T>)
    requires IsObject(response)
    ensures Extracted(response, parse) ==
            (match parse(response) case Some(v) => Ok(v) case None => Err(NO_JSON))
  {
    WholeObject(response);
    assert response[0..|response|] == response;
  }

  /** The extractor's scan, run in place as a loop over the response, then the decoder. */
  method ExtractObject<T>(response: string, parse: string -> Option<T>) returns (r: Result<T>)
    ensures r == Extracted(response, parse)
  {
    var start, end, braceCount := -1, -1, 0;
    var i := 0;
    while i < |response|
      invariant 0 <= i <= |response|
      invariant start == -1 || 0 <= start < i
      invariant end == -1
      invariant Scan(response, i, start, braceCount) == ObjectSpan(response)
    {
      var c := response[i];
      if c == '{' {
        if start == -1 {
          start := i;
        }
        braceCount := braceCount + 1;
      } else if c == '}' && start != -1 {
        braceCount := braceCount - 1;
        if braceCount == 0 {
          end := i + 1;
          break;
        }
      }
      i := i + 1;
    }
    if start != -1 && end != -1 {
      var parsed := parse(response[start..end]);
      if parsed.Some? {
        return Ok(parsed.value);
      }
    }
    return Err(NO_JSON);
  }

  // ---- The scan as written in the source ----

  /** The source's scan: `braceCount` is decremented by every `}`, also one met before the
      first `{`, and the end is taken where the count is back at zero after the first `{`. */
  function SourceScan(s: string, i: nat, start: int, braceCount: int): Option<Span>
    requires i <= |s| && -1 <= start
    decreases |s| - i
  {
    if i == |s| then None
    else if s[i] == '{' then
      SourceScan(s, i + 1, if start == -1 then i else start, braceCount + 1)
    else if s[i] == '}' then
      if braceCount - 1 == 0 && start != -1 then Some(Span(start, i + 1))
      else SourceScan(s, i + 1, start, braceCount - 1)
    else
      SourceScan(s, i + 1, start, braceCount)
  }

  function SourceObjectSpan(s: string): Option<Span> {
    SourceScan(s, 0, -1, 0)
  }

  /** `sp` runs from the first `{` of `s` to a `}`. */
  predicate FromFirstOpen(s: string, sp: Span) {
    sp.start < sp.end <= |s| && s[sp.start] == '{' && NoOpenBefore(s, sp.start) && s[sp.end - 1] == '}'
  }

  /** Whatever the source's scan returns runs from the first `{` to a `}`. */
  lemma {:induction false} SourceScanShape(s: string, i: nat, start: int, braceCount: int)
    requires i <= |s| && -1 <= start
    requires start == -1 ==> NoOpenBefore(s, i)
    requires start != -1 ==> start < i && s[start] == '{' && NoOpenBefore(s, start)
    ensures SourceScan(s, i, start, braceCount).Some? ==> FromFirstOpen(s, SourceScan(s, i, start, braceCount).value)
    decreases |s| - i
  {
    if i < |s| {
      if s[i] == '{' {
        SourceScanShape(s, i + 1, if start == -1 then i else start, braceCount + 1);
      } else if s[i] == '}' {
        if !(braceCount - 1 == 0 && start != -1) {
          SourceScanShape(s, i + 1, start, braceCount - 1);
        }
      } else {
        SourceScanShape(s, i + 1, start, braceCount);
      }
    }
  }

  /** What the source's extractor returns: the decoding of the span its scan finds, or the
      extractor's error. The decoded text always runs from the first `{` to a `}`, and on a
      response without a stray `}` this is exactly the corrected extractor's answer. */
  function SourceExtracted<T>(response: string, parse: string -> Option<T>): (r: Result<T>)
    ensures r.Err? ==> r.error == NO_JSON
    ensures r.Ok? ==> exists sp :: FromFirstOpen(response, sp) && parse(response[sp.start..sp.end]) == Some(r.value)
    ensures NoStrayClose(response) ==> r == Extracted(response, parse)
  {
    SourceScanShape(response, 0, -1, 0);
    assert NoStrayClose(response) ==> SourceObjectSpan(response) == ObjectSpan(response) by {
      if NoStrayClose(response) {
        SourceObjectSpanAgrees(response);
      }
    }
    match SourceObjectSpan(response)
    case Some(sp) =>
      (match parse(response[sp.start..sp.end])
       case Some(v) => Ok(v)
       case None => Err(NO_JSON))
    case None => Err(NO_JSON)
  }

  /** `extractSunoProperties` / `extractPersonaInspo` as written: the loop that decrements the
      count on every `}`, then the decoder. */
  method SourceExtractObject<T>(response: string, parse: string -> Option<T>) returns (r: Result<T>)
    ensures r == SourceExtracted(response, parse)
  {
    var start, end, braceCount := -1, -1, 0;
    var i := 0;
    while i < |response|
      invariant 0 <= i <= |response|
      invariant start == -1 || 0 <= start < i
      invariant end == -1
      invariant SourceScan(response, i, start, braceCount) == SourceObjectSpan(response)
    {
      var c := response[i];
      if c == '{' {
        if start == -1 {
          start := i;
        }
        braceCount := braceCount + 1;
      } else if c == '}' {
        braceCount := braceCount - 1;
        if braceCount == 0 && start != -1 {
          end := i + 1;
          break;
        }
      }
      i := i + 1;
    }
    if start != -1 && end != -1 {
      var parsed := parse(response[start..end]);
      if parsed.Some? {
        return Ok(parsed.value);
      }
    }
    return Err(NO_JSON);
  }

  /** A `}` before the first `{` throws the source's count off: on `}{{}}` it hands the
      unbalanced `{{}` to the decoder, where the corrected scan finds `{{}}`; on `} {}` it finds
      nothing, where the corrected scan finds `{}`. */
  lemma StrayCloseBreaksSpan()
    ensures SourceObjectSpan("}{{}}") == Some(Span(1, 4))
    ensures Balance("}{{}}"[1..4]) == 1
    ensures ObjectSpan("}{{}}") == Some(Span(1, 5))
    ensures SourceObjectSpan("} {}") == None
    ensures ObjectSpan("} {}") == Some(Span(2, 4))
  {
    var s := "}{{}}";
    assert s[1..4] == "{{}";
    assert "{{}"[..2] == "{{" && "{{"[..1] == "{" && "{"[..0] == [];
  }

  /** A `}` at index `j` is preceded by a `{`. */
  predicate NoStrayClose(s: string) {
    forall j :: 0 <= j < |s| && s[j] == '}' ==> !NoOpenBefore(s, j)
  }

  /** Without a `}` before the first `{` the source's scan and the corrected scan agree. */
  lemma {:induction false} SourceScanAgrees(s: string, i: nat, start: int, depth: int)
    requires i <= |s| && -1 <= start && NoStrayClose(s)
    requires start == -1 ==> NoOpenBefore(s, i)
    ensures SourceScan(s, i, start, depth) == Scan(s, i, start, depth)
    decreases |s| - i
  {
    if i < |s| {
      if s[i] == '{' {
        SourceScanAgrees(s, i + 1, if start == -1 then i else start, depth + 1);
      } else {
        SourceScanAgrees(s, i + 1, start, if s[i] == '}' then depth - 1 else depth);
      }
    }
  }

  lemma SourceObjectSpanAgrees(s: string)
    requires NoStrayClose(s)
    ensures SourceObjectSpan(s) == ObjectSpan(s)
  {
    SourceScanAgrees(s, 0, -1, 0);
  }
}
