/** Reading the token list: `normalizeTokenList` accepts three JSON shapes, then
    every entry is trimmed and blank entries are dropped. */
module TokenList {
  import opened Wrappers
  import opened JsValue

  datatype Error =
    | FormatNotRecognized  // the error thrown by `normalizeTokenList`
    | TokenNotString       // the TypeError of `t.trim()` on a non-string entry

  predicate AllStrings(xs: seq<Value>) {
    forall i :: 0 <= i < |xs| ==> xs[i].Str?
  }

  /** `typeof x === "object" && x?.address` for every entry. */
  predicate AllAddressObjects(xs: seq<Value>) {
    forall i :: 0 <= i < |xs| ==> xs[i].Obj? && Truthy(Get(xs[i], "address"))
  }

  /** Lines 106-117. An array of strings is returned unchanged; an array of
      objects with a truthy `address` becomes the addresses in order; an object
      whose `tokens` field is an array yields that array; anything else is
      rejected. */
  function NormalizeTokenList(tokensJson: Value): (r: Result<seq<Value>, Error>)
    ensures r.Failure? ==> r.error == FormatNotRecognized
    ensures r.Success? <==>
              (tokensJson.Arr? && (AllStrings(tokensJson.elems) || AllAddressObjects(tokensJson.elems)))
              || Get(tokensJson, "tokens").Arr?
    ensures tokensJson.Arr? && AllStrings(tokensJson.elems) ==> r == Success(tokensJson.elems)
    ensures tokensJson.Arr? && AllAddressObjects(tokensJson.elems) ==>
              r.Success? && |r.value| == |tokensJson.elems| &&
              forall i :: 0 <= i < |r.value| ==> r.value[i] == Get(tokensJson.elems[i], "address")
    ensures tokensJson.Obj? ==> (r.Success? <==> Get(tokensJson, "tokens").Arr?)
    ensures r.Success? && tokensJson.Obj? ==> r.value == Get(tokensJson, "tokens").elems
  {
    if tokensJson.Arr? && AllStrings(tokensJson.elems) then
      Success(tokensJson.elems)
    else if tokensJson.Arr? && AllAddressObjects(tokensJson.elems) then
      var xs := tokensJson.elems;
      Success(seq(|xs|, i requires 0 <= i < |xs| => Get(xs[i], "address")))
    else if Truthy(tokensJson) && Get(tokensJson, "tokens").Arr? then
      Success(Get(tokensJson, "tokens").elems)
    else
      Failure(FormatNotRecognized)
  }

  /** ECMAScript WhiteSpace and LineTerminator code points, which `trim` removes. */
  const JS_WHITESPACE: set<char> :=
    {'\t', '\n', '\U{000B}', '\U{000C}', '\r', ' ', '\U{00A0}', '\U{1680}',
     '\U{2000}', '\U{2001}', '\U{2002}', '\U{2003}', '\U{2004}', '\U{2005}',
     '\U{2006}', '\U{2007}', '\U{2008}', '\U{2009}', '\U{200A}',
     '\U{2028}', '\U{2029}', '\U{202F}', '\U{205F}', '\U{3000}', '\U{FEFF}'}

  predicate IsJsWhitespace(c: char) {
    c in JS_WHITESPACE
  }

  /** End of the whitespace run of `s` that starts at `i`: every character
      from `i` up to the result is whitespace, and the one at the result is not. */
  function LeadingEnd(s: string, i: nat): (a: nat)
    requires i <= |s|
    ensures i <= a <= |s|
    ensures forall k :: i <= k < a ==> IsJsWhitespace(s[k])
    ensures a < |s| ==> !IsJsWhitespace(s[a])
    decreases |s| - i
  {
    if i < |s| && IsJsWhitespace(s[i]) then LeadingEnd(s, i + 1) else i
  }

  /** Start of the whitespace run of `s` that ends at `j`, not going below `lo`:
      every character from the result up to `j` is whitespace, and the one just
      before the result, if at or above `lo`, is not. */
  function TrailingStart(s: string, lo: nat, j: nat): (b: nat)
    requires lo <= j <= |s|
    ensures lo <= b <= j
    ensures forall k :: b <= k < j ==> IsJsWhitespace(s[k])
    ensures b > lo ==> !IsJsWhitespace(s[b - 1])
    decreases j
  {
    if j > lo && IsJsWhitespace(s[j - 1]) then TrailingStart(s, lo, j - 1) else j
  }

  /** `String.prototype.trim`: the slice of `s` between its leading and its
      trailing whitespace, which neither starts nor ends with whitespace. */
  function Trim(s: string): (r: string)
    ensures |r| <= |s|
    ensures r == [] || (!IsJsWhitespace(r[0]) && !IsJsWhitespace(r[|r| - 1]))
    ensures var a := LeadingEnd(s, 0);
            && a + |r| <= |s| && r == s[a..a + |r|]
            && (forall k :: 0 <= k < a ==> IsJsWhitespace(s[k]))
            && (forall k :: a + |r| <= k < |s| ==> IsJsWhitespace(s[k]))
  {
    var a := LeadingEnd(s, 0);
    var b := TrailingStart(s, a, |s|);
    s[a..b]
  }

  /** A trimmed string is its own trim. */
  lemma TrimIdempotent(s: string)
    ensures Trim(Trim(s)) == Trim(s)
  {
    var r := Trim(s);
    assert LeadingEnd(r, 0) == 0;
    assert TrailingStart(r, 0, |r|) == |r|;
  }

  /** `.map((t) => t.trim())`: fails on the first entry that is not a string. */
  function TrimAll(xs: seq<Value>): (r: Result<seq<string>, Error>)
    ensures r.Success? <==> AllStrings(xs)
    ensures r.Failure? ==> r.error == TokenNotString
    ensures r.Success? ==>
              |r.value| == |xs| && forall i :: 0 <= i < |xs| ==> r.value[i] == Trim(xs[i].s)
    decreases |xs|
  {
    if |xs| == 0 then Success([])
    else if !xs[0].Str? then Failure(TokenNotString)
    else match TrimAll(xs[1..])
      case Success(rest) => Success([Trim(xs[0].s)] + rest)
      case Failure(e) => Failure(e)
  }

  /** `.filter(Boolean)` over strings: keeps the non-empty ones. */
  function DropEmpty(xs: seq<string>): (r: seq<string>)
    ensures |r| <= |xs|
    ensures |r| == |xs| <==> "" !in xs
    decreases |xs|
  {
    if |xs| == 0 then []
    else (if xs[0] == "" then [] else [xs[0]]) + DropEmpty(xs[1..])
  }

  /** `r` is `xs` with some entries removed, order kept. */
  predicate IsSubsequence<T(==)>(r: seq<T>, xs: seq<T>)
    decreases |xs|
  {
    if |r| == 0 then true
    else if |xs| == 0 then false
    else (r[0] == xs[0] && IsSubsequence(r[1..], xs[1..])) || IsSubsequence(r, xs[1..])
  }

  /** Dropping blanks leaves no blank, and only entries of the input. */
  lemma {:induction false} DropEmptyKeepsOnlyNonBlank(xs: seq<string>)
    ensures "" !in DropEmpty(xs)
    ensures forall i :: 0 <= i < |DropEmpty(xs)| ==> DropEmpty(xs)[i] in xs
    decreases |xs|
  {
    if |xs| > 0 {
      DropEmptyKeepsOnlyNonBlank(xs[1..]);
    }
  }

  /** Dropping blanks keeps every non-blank entry as often as it occurs. */
  lemma {:induction false} DropEmptyKeepsCounts(xs: seq<string>)
    ensures forall x :: x != "" ==> multiset(DropEmpty(xs))[x] == multiset(xs)[x]
    decreases |xs|
  {
    if |xs| > 0 {
      DropEmptyKeepsCounts(xs[1..]);
      assert xs == [xs[0]] + xs[1..];
    }
  }

  /** Dropping blanks keeps the input order. */
  lemma {:induction false} DropEmptyKeepsOrder(xs: seq<string>)
    ensures IsSubsequence(DropEmpty(xs), xs)
    decreases |xs|
  {
    if |xs| > 0 {
      DropEmptyKeepsOrder(xs[1..]);
      var rest := DropEmpty(xs[1..]);
      if xs[0] != "" {
        var r := [xs[0]] + rest;
        assert r[0] == xs[0] && r[1..] == rest;
      } else {
        assert DropEmpty(xs) == rest;
      }
    }
  }

  /** Line 130: the token list the run iterates over. It fails exactly when
      the shape is not recognised or an entry is not a string, and every
      loaded token is non-blank and already trimmed. */
  function LoadTokens(tokensJson: Value): (r: Result<seq<string>, Error>)
    ensures (r.Success? <==>
               NormalizeTokenList(tokensJson).Success? && AllStrings(NormalizeTokenList(tokensJson).value))
    ensures NormalizeTokenList(tokensJson).Failure? ==> r == Failure(FormatNotRecognized)
    ensures NormalizeTokenList(tokensJson).Success? && r.Failure? ==> r == Failure(TokenNotString)
    ensures r.Success? ==> forall i :: 0 <= i < |r.value| ==> r.value[i] != "" && Trim(r.value[i]) == r.value[i]
  {
    match NormalizeTokenList(tokensJson)
    case Failure(e) => Failure(e)
    case Success(raw) =>
      match TrimAll(raw)
      case Failure(e) => Failure(e)
      case Success(trimmed) =>
        DropEmptyKeepsOnlyNonBlank(trimmed);
        TrimmedStayTrimmed(raw, trimmed);
        Success(DropEmpty(trimmed))
  }

  /** The tokens are the trimmed entries in input order with the blanks
      removed, and each is non-blank and already trimmed. */
  ghost predicate LoadedFrom(tokens: seq<string>, trimmed: seq<string>) {
    && (forall i :: 0 <= i < |tokens| ==> tokens[i] != "" && Trim(tokens[i]) == tokens[i])
    && IsSubsequence(tokens, trimmed)
    && (forall x :: x != "" ==> multiset(tokens)[x] == multiset(trimmed)[x])
  }

  /** On success the tokens are loaded from the trimmed entries as `LoadedFrom`
      describes. */
  lemma LoadTokensSpec(tokensJson: Value)
    requires LoadTokens(tokensJson).Success?
    ensures NormalizeTokenList(tokensJson).Success?
    ensures TrimAll(NormalizeTokenList(tokensJson).value).Success?
    ensures LoadedFrom(LoadTokens(tokensJson).value, TrimAll(NormalizeTokenList(tokensJson).value).value)
  {
    var raw := NormalizeTokenList(tokensJson).value;
    var trimmed := TrimAll(raw).value;
    var tokens := DropEmpty(trimmed);
    DropEmptyKeepsOnlyNonBlank(trimmed);
    DropEmptyKeepsCounts(trimmed);
    DropEmptyKeepsOrder(trimmed);
    TrimmedStayTrimmed(raw, trimmed);
    assert LoadedFrom(tokens, trimmed);
  }

  lemma TrimmedStayTrimmed(raw: seq<Value>, trimmed: seq<string>)
    requires TrimAll(raw) == Success(trimmed)
    ensures forall i :: 0 <= i < |DropEmpty(trimmed)| ==> Trim(DropEmpty(trimmed)[i]) == DropEmpty(trimmed)[i]
  {
    DropEmptyKeepsOnlyNonBlank(trimmed);
    var tokens := DropEmpty(trimmed);
    forall i | 0 <= i < |tokens|
      ensures Trim(tokens[i]) == tokens[i]
    {
      var j :| 0 <= j < |trimmed| && trimmed[j] == tokens[i];
      TrimIdempotent(raw[j].s);
    }
  }
}
