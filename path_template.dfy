/** `generatePathExpression` (src/generateEndpoint.ts): the URL template built
    from an OpenAPI path by `path.replace(/\{(.*?)}(.*?)(?=\{|$)/g, ...)`.
    Every match contributes a placeholder name and the literal text after it,
    in left-to-right order; all text outside the matches is kept, in order, as
    the template head. */
module PathTemplate {
  import opened Wrappers
  import opened OpenApi
  import opened TsUtils

  /** The characters the regular-expression `.` does not match. */
  predicate IsLineTerminator(c: char) {
    c == '\n' || c == '\r' || c == '\U{2028}' || c == '\U{2029}'
  }

  predicate NoLineTerminator(s: string) {
    forall m :: 0 <= m < |s| ==> !IsLineTerminator(s[m])
  }

  /** Every `{` has some `}` after it. */
  predicate EveryOpenClosed(s: string) {
    forall a :: 0 <= a < |s| && s[a] == '{' ==> exists b :: a < b < |s| && s[b] == '}'
  }

  /** The first index at or after `from` holding `stop` or a line terminator
      (or |s|): with `}` where the lazy `(.*?)}` stops or fails, with `{`
      where the lazy `(.*?)(?=\{|$)` stops or fails. */
  function NextStopOrBreak(s: string, from: nat, stop: char): (k: nat)
    requires from <= |s|
    ensures from <= k <= |s|
    ensures k < |s| ==> s[k] == stop || IsLineTerminator(s[k])
    ensures forall m :: from <= m < k ==> s[m] != stop && !IsLineTerminator(s[m])
    decreases |s| - from
  {
    if from == |s| || s[from] == stop || IsLineTerminator(s[from]) then from
    else NextStopOrBreak(s, from + 1, stop)
  }

  /** A match of the pattern starting exactly at index `i`, as the index `k`
      of its closing brace and the end `j` of its literal.  The lazy name
      stops at the first `}`; a longer name cannot rescue a literal that runs
      into a line terminator, since no `{` lies between. */
  function MatchAt(s: string, i: nat): (m: Option<(nat, nat)>)
    requires i < |s|
    ensures m.Some? ==> s[i] == '{' && i < m.value.0 < m.value.1 <= |s| && s[m.value.0] == '}'
    ensures m.Some? ==> m.value.1 == |s| || s[m.value.1] == '{'
    ensures s[i] != '{' ==> m.None?
  {
    if s[i] != '{' then None
    else
      var k := NextStopOrBreak(s, i + 1, '}');
      if k == |s| || s[k] != '}' then None
      else
        var j := NextStopOrBreak(s, k + 1, '{');
        if j < |s| && s[j] != '{' then None else Some((k, j))
  }

  /** Inside a match: the name holds no `}`, the literal no `{`, and neither
      a line terminator. */
  lemma MatchAtInterior(s: string, i: nat)
    requires i < |s| && MatchAt(s, i).Some?
    ensures forall x :: i < x < MatchAt(s, i).value.0 ==> s[x] != '}' && !IsLineTerminator(s[x])
    ensures forall x :: MatchAt(s, i).value.0 < x < MatchAt(s, i).value.1 ==> s[x] != '{' && !IsLineTerminator(s[x])
  {
  }

  datatype Placeholder = Placeholder(name: string, literal: string)

  /** The `(head, expressions)` pair the replace callback produces. */
  datatype Parsed = Parsed(head: string, placeholders: seq<Placeholder>)

  /** The global replace from index `i` on: a match is recorded and skipped,
      any other character is kept in the head. */
  function Scan(s: string, i: nat): Parsed
    requires i <= |s|
    decreases |s| - i
  {
    if i == |s| then Parsed("", [])
    else
      match MatchAt(s, i)
      case Some(kj) =>
        var rest := Scan(s, kj.1);
        Parsed(rest.head, [Placeholder(s[i + 1..kj.0], s[kj.0 + 1..kj.1])] + rest.placeholders)
      case None =>
        var rest := Scan(s, i + 1);
        Parsed([s[i]] + rest.head, rest.placeholders)
  }

  function ParsePath(s: string): Parsed {
    Scan(s, 0)
  }

  /** The path written back from a parse: head, then `{name}literal` per placeholder. */
  function Reassemble(p: Parsed): string {
    p.head + Concat(p.placeholders)
  }

  function Concat(xs: seq<Placeholder>): string {
    if |xs| == 0 then "" else "{" + xs[0].name + "}" + xs[0].literal + Concat(xs[1..])
  }

  predicate Declared(params: seq<Parameter>, name: string) {
    exists q :: q in params && q.name == name
  }

  /** The name of the first placeholder that no parameter declares, if any. */
  function FirstUndeclared(xs: seq<Placeholder>, params: seq<Parameter>): (r: Option<string>)
    ensures r.None? <==> forall x :: x in xs ==> Declared(params, x.name)
    ensures r.Some? ==> !Declared(params, r.value) && exists x :: x in xs && x.name == r.value
  {
    if |xs| == 0 then None
    else if !Declared(params, xs[0].name) then Some(xs[0].name)
    else
      var r := FirstUndeclared(xs[1..], params);
      assert forall x :: x in xs[1..] ==> x in xs;
      assert forall x :: x in xs ==> x == xs[0] || x in xs[1..];
      r
  }

  /** The value substituted for a placeholder: the replacement, if the
      callback gives one; else the root itself for a flat argument; else the
      property of the root. */
  function SpanValue(name: string, rootObject: RootObject, isFlatArg: bool,
                     replaceParam: string -> Option<Expr>, isValidIdentifier: string -> bool): Expr
  {
    var replaced := replaceParam(name);
    if replaced.Some? then replaced.value
    else if isFlatArg then RootIdent(rootObject)
    else AccessProperty(rootObject, name, isValidIdentifier)
  }

  /** `createTemplateExpression` over the spans, or a plain template literal
      when there is nothing to substitute. */
  function BuildTemplate(head: string, xs: seq<Placeholder>, rootObject: RootObject, isFlatArg: bool,
                         replaceParam: string -> Option<Expr>, isValidIdentifier: string -> bool): Expr
  {
    if |xs| == 0 then NoSubstTemplate(head)
    else
      Template(head, seq(|xs|, k requires 0 <= k < |xs| =>
        Span(SpanValue(xs[k].name, rootObject, isFlatArg, replaceParam, isValidIdentifier),
             xs[k].literal,
             if k == |xs| - 1 then Tail else Middle)))
  }

  /** No placeholder gives a plain template literal; otherwise one span per
      placeholder, in order, holding its value and literal, the last a tail. */
  lemma BuildTemplateShape(head: string, xs: seq<Placeholder>, rootObject: RootObject, isFlatArg: bool,
                           replaceParam: string -> Option<Expr>, isValidIdentifier: string -> bool)
    ensures var e := BuildTemplate(head, xs, rootObject, isFlatArg, replaceParam, isValidIdentifier);
      && (|xs| == 0 ==> e == NoSubstTemplate(head))
      && (|xs| > 0 ==> e.Template? && e.head == head && |e.spans| == |xs|)
      && (e.Template? ==> forall k :: 0 <= k < |xs| ==>
            && e.spans[k].value == SpanValue(xs[k].name, rootObject, isFlatArg, replaceParam, isValidIdentifier)
            && e.spans[k].literal == xs[k].literal
            && (e.spans[k].end == Tail <==> k == |xs| - 1))
  {
  }

  /** What `generatePathExpression` returns, or the error it throws. */
  function PathExpression(path: string, pathParameters: Option<seq<Parameter>>, rootObject: RootObject,
                          isFlatArg: bool, replaceParam: string -> Option<Expr>,
                          isValidIdentifier: string -> bool): Result<Expr, Error>
  {
    var params := if pathParameters.Some? then pathParameters.value else [];
    var parsed := ParsePath(path);
    match FirstUndeclared(parsed.placeholders, params)
    case Some(n) => Failure(UndefinedPathParameter(n, path))
    case None => Success(BuildTemplate(parsed.head, parsed.placeholders, rootObject, isFlatArg,
                                       replaceParam, isValidIdentifier))
  }

  lemma {:induction false} FirstUndeclaredAppend(a: seq<Placeholder>, b: seq<Placeholder>, params: seq<Parameter>)
    ensures FirstUndeclared(a + b, params)
         == if FirstUndeclared(a, params).Some? then FirstUndeclared(a, params) else FirstUndeclared(b, params)
  {
    if |a| > 0 {
      assert (a + b)[0] == a[0];
      assert (a + b)[1..] == a[1..] + b;
      FirstUndeclaredAppend(a[1..], b, params);
    } else {
      assert a + b == b;
    }
  }

  /** The loop state of the replace loop: what is recorded so far, followed
      by what the scan from `i` finds, is the parse of the whole path. */
  ghost predicate ScanState(path: string, i: nat, head: string, xs: seq<Placeholder>)
    requires i <= |path|
  {
    ParsePath(path) == Parsed(head + Scan(path, i).head, xs + Scan(path, i).placeholders)
  }

  lemma MatchKeepsState(path: string, i: nat, k: nat, j: nat, head: string, xs: seq<Placeholder>)
    requires i < |path| && MatchAt(path, i) == Some((k, j)) && ScanState(path, i, head, xs)
    ensures ScanState(path, j, head, xs + [Placeholder(path[i + 1..k], path[k + 1..j])])
  {
    ScanMatchStep(path, i, k, j);
    AppendAssoc(xs, [Placeholder(path[i + 1..k], path[k + 1..j])], Scan(path, j).placeholders);
  }

  lemma TextKeepsState(path: string, i: nat, head: string, xs: seq<Placeholder>)
    requires i < |path| && MatchAt(path, i).None? && ScanState(path, i, head, xs)
    ensures ScanState(path, i + 1, head + [path[i]], xs)
  {
    ScanNoMatchStep(path, i);
    AppendAssoc(head, [path[i]], Scan(path, i + 1).head);
  }

  /** Throwing at a match is what the whole parse decides once every
      placeholder before it is declared. */
  lemma UndeclaredAtMatch(path: string, i: nat, k: nat, j: nat, head: string, xs: seq<Placeholder>,
                          params: seq<Parameter>)
    requires i < |path| && MatchAt(path, i) == Some((k, j)) && ScanState(path, i, head, xs)
    requires FirstUndeclared(xs, params).None? && !Declared(params, path[i + 1..k])
    ensures FirstUndeclared(ParsePath(path).placeholders, params) == Some(path[i + 1..k])
  {
    var x := Placeholder(path[i + 1..k], path[k + 1..j]);
    MatchKeepsState(path, i, k, j, head, xs);
    FirstUndeclaredAppend(xs + [x], Scan(path, j).placeholders, params);
    FirstUndeclaredAppend(xs, [x], params);
  }

  lemma {:induction false} DeclaredAtMatch(path: string, i: nat, k: nat, j: nat, xs: seq<Placeholder>,
                                           params: seq<Parameter>)
    requires i < |path| && MatchAt(path, i) == Some((k, j))
    requires FirstUndeclared(xs, params).None? && Declared(params, path[i + 1..k])
    ensures FirstUndeclared(xs + [Placeholder(path[i + 1..k], path[k + 1..j])], params).None?
  {
    FirstUndeclaredAppend(xs, [Placeholder(path[i + 1..k], path[k + 1..j])], params);
  }

  lemma EndState(path: string, head: string, xs: seq<Placeholder>)
    requires ScanState(path, |path|, head, xs)
    ensures ParsePath(path) == Parsed(head, xs)
  {
    assert xs + [] == xs;
    assert head + "" == head;
  }

  /** The replace loop, as the source runs it: scan left to right, record
      each match, throw at the first placeholder no parameter declares. */
  method GeneratePathExpression(path: string, pathParameters: Option<seq<Parameter>>, rootObject: RootObject,
                                isFlatArg: bool, replaceParam: string -> Option<Expr>,
                                isValidIdentifier: string -> bool)
    returns (r: Result<Expr, Error>)
    ensures r == PathExpression(path, pathParameters, rootObject, isFlatArg, replaceParam, isValidIdentifier)
  {
    var params := if pathParameters.Some? then pathParameters.value else [];
    var expressions: seq<Placeholder> := [];
    var head := "";
    var i := 0;
    while i < |path|
      invariant 0 <= i <= |path|
      invariant ScanState(path, i, head, expressions)
      invariant FirstUndeclared(expressions, params).None?
      decreases |path| - i
    {
      var m := MatchAt(path, i);
      if m.Some? {
        var k, j := m.value.0, m.value.1;
        var name := path[i + 1..k];
        var literal := path[k + 1..j];
        if !Declared(params, name) {
          UndeclaredAtMatch(path, i, k, j, head, expressions, params);
          return Failure(UndefinedPathParameter(name, path));
        }
        MatchKeepsState(path, i, k, j, head, expressions);
        DeclaredAtMatch(path, i, k, j, expressions, params);
        expressions := expressions + [Placeholder(name, literal)];
        i := j;
      } else {
        TextKeepsState(path, i, head, expressions);
        head := head + [path[i]];
        i := i + 1;
      }
    }
    EndState(path, head, expressions);
    r := Success(BuildTemplate(head, expressions, rootObject, isFlatArg, replaceParam, isValidIdentifier));
  }

  lemma AppendAssoc<T>(a: seq<T>, b: seq<T>, c: seq<T>)
    ensures a + (b + c) == (a + b) + c
  {
  }

  /** A character where no match starts goes to the head. */
  lemma ScanNoMatchStep(s: string, i: nat)
    requires i < |s| && MatchAt(s, i).None?
    ensures Scan(s, i) == Parsed([s[i]] + Scan(s, i + 1).head, Scan(s, i + 1).placeholders)
  {
  }

  /** In particular a character other than `{` goes to the head. */
  lemma ScanTextStep(s: string, i: nat)
    requires i < |s| && s[i] != '{'
    ensures Scan(s, i) == Parsed([s[i]] + Scan(s, i + 1).head, Scan(s, i + 1).placeholders)
  {
    ScanNoMatchStep(s, i);
  }

  lemma ConsSlice(s: string, i: nat, m: nat, h: string)
    requires i < m <= |s|
    ensures [s[i]] + (s[i + 1..m] + h) == s[i..m] + h
  {
    assert s[i..m] == [s[i]] + s[i + 1..m];
  }

  /** Text without `{` is copied into the head unchanged. */
  lemma {:induction false} ScanSkipsText(s: string, i: nat, m: nat)
    requires i <= m <= |s|
    requires forall x :: i <= x < m ==> s[x] != '{'
    ensures Scan(s, i) == Parsed(s[i..m] + Scan(s, m).head, Scan(s, m).placeholders)
    decreases m - i
  {
    if i < m {
      ScanSkipsText(s, i + 1, m);
      ScanTextStep(s, i);
      ConsSlice(s, i, m, Scan(s, m).head);
    } else {
      assert s[i..m] + Scan(s, m).head == Scan(s, m).head;
    }
  }

  /** Without line terminators, every `{` that some `}` follows starts a match,
      and that match ends at the next `{` or at the end. */
  lemma MatchesAtOpen(s: string, i: nat)
    requires NoLineTerminator(s) && EveryOpenClosed(s)
    requires i < |s| && s[i] == '{'
    ensures MatchAt(s, i).Some?
  {
    var b :| i < b < |s| && s[b] == '}';
    var k := NextStopOrBreak(s, i + 1, '}');
    assert k <= b;
    var j := NextStopOrBreak(s, k + 1, '{');
    assert j < |s| ==> s[j] == '{';
  }

  /** From a `{` (or the end) no text is left over for the head. */
  lemma {:induction false} HeadEmptyFromOpen(s: string, i: nat)
    requires NoLineTerminator(s) && EveryOpenClosed(s)
    requires i <= |s| && (i == |s| || s[i] == '{')
    ensures Scan(s, i).head == ""
    decreases |s| - i
  {
    if i < |s| {
      MatchesAtOpen(s, i);
      HeadEmptyFromOpen(s, MatchAt(s, i).value.1);
    }
  }

  lemma {:induction false} SplitAtMatch(s: string, i: nat, k: nat, j: nat)
    requires i < k < j <= |s| && s[i] == '{' && s[k] == '}'
    ensures s[i..] == "{" + s[i + 1..k] + "}" + s[k + 1..j] + s[j..]
  {
    assert s[i..] == s[i..i + 1] + s[i + 1..k] + s[k..k + 1] + s[k + 1..j] + s[j..];
  }

  /** A match goes to the placeholders, in front of those after it. */
  lemma ScanMatchStep(s: string, i: nat, k: nat, j: nat)
    requires i < |s| && MatchAt(s, i) == Some((k, j))
    ensures Scan(s, i) == Parsed(Scan(s, j).head, [Placeholder(s[i + 1..k], s[k + 1..j])] + Scan(s, j).placeholders)
  {
  }

  lemma ConcatCons(x: Placeholder, xs: seq<Placeholder>)
    ensures Concat([x] + xs) == "{" + x.name + "}" + x.literal + Concat(xs)
  {
    assert ([x] + xs)[1..] == xs;
  }

  /** One match step of the round trip: the `{name}literal` piece is the
      text from `i` to the end of the match. */
  lemma {:induction false} ReassembleMatchStep(s: string, i: nat, k: nat, j: nat)
    requires i < |s| && MatchAt(s, i) == Some((k, j))
    requires Scan(s, j).head == "" && Reassemble(Scan(s, j)) == s[j..]
    ensures Reassemble(Scan(s, i)) == s[i..]
  {
    ScanMatchStep(s, i, k, j);
    ConcatCons(Placeholder(s[i + 1..k], s[k + 1..j]), Scan(s, j).placeholders);
    SplitAtMatch(s, i, k, j);
  }

  lemma PrependToHead(c: char, rest: Parsed, t: string)
    requires Reassemble(rest) == t
    ensures Reassemble(Parsed([c] + rest.head, rest.placeholders)) == [c] + t
  {
  }

  /** One text step of the round trip: a character outside any match is the
      first character of the head. */
  lemma {:induction false} ReassembleTextStep(s: string, i: nat)
    requires i < |s| && s[i] != '{'
    requires Reassemble(Scan(s, i + 1)) == s[i + 1..]
    ensures Reassemble(Scan(s, i)) == s[i..]
  {
    ScanTextStep(s, i);
    PrependToHead(s[i], Scan(s, i + 1), s[i + 1..]);
    SliceCons(s, i);
  }

  lemma SliceCons<T>(s: seq<T>, i: nat)
    requires i < |s|
    ensures s[i..] == [s[i]] + s[i + 1..]
  {
  }

  lemma {:induction false} ReassembleFrom(s: string, i: nat)
    requires NoLineTerminator(s) && EveryOpenClosed(s)
    requires i <= |s|
    ensures Reassemble(Scan(s, i)) == s[i..]
    decreases |s| - i
  {
    if i < |s| {
      if s[i] == '{' {
        MatchesAtOpen(s, i);
        var kj := MatchAt(s, i).value;
        ReassembleFrom(s, kj.1);
        HeadEmptyFromOpen(s, kj.1);
        ReassembleMatchStep(s, i, kj.0, kj.1);
      } else {
        ReassembleFrom(s, i + 1);
        ReassembleTextStep(s, i);
      }
    }
  }

  /** Round trip: when no line terminator occurs and every `{` is followed by
      some `}`, head and `{name}literal` pieces give back the path. */
  lemma ParsePathRoundTrip(s: string)
    requires NoLineTerminator(s) && EveryOpenClosed(s)
    ensures Reassemble(ParsePath(s)) == s
  {
    ReassembleFrom(s, 0);
  }

  /** Under the same condition the head is exactly the text before the first `{`. */
  lemma ParsePathHead(s: string, f: nat)
    requires NoLineTerminator(s) && EveryOpenClosed(s)
    requires f <= |s| && (f == |s| || s[f] == '{')
    requires forall x :: 0 <= x < f ==> s[x] != '{'
    ensures ParsePath(s).head == s[..f]
  {
    ScanSkipsText(s, 0, f);
    HeadEmptyFromOpen(s, f);
  }

  /** Where the scan records no placeholder, all text is head. */
  lemma {:induction false} ScanWithoutPlaceholders(s: string, i: nat)
    requires i <= |s|
    requires Scan(s, i).placeholders == []
    ensures Scan(s, i).head == s[i..]
    decreases |s| - i
  {
    if i < |s| {
      assert MatchAt(s, i).None?;
      ScanWithoutPlaceholders(s, i + 1);
      assert s[i..] == [s[i]] + s[i + 1..];
    }
  }

  /** A path without placeholders is all head, and becomes a template literal
      equal to the path. */
  lemma NoPlaceholderPath(s: string, pathParameters: Option<seq<Parameter>>, rootObject: RootObject,
                          isFlatArg: bool, replaceParam: string -> Option<Expr>,
                          isValidIdentifier: string -> bool)
    requires ParsePath(s).placeholders == []
    ensures ParsePath(s) == Parsed(s, [])
    ensures PathExpression(s, pathParameters, rootObject, isFlatArg, replaceParam, isValidIdentifier)
         == Success(NoSubstTemplate(s))
  {
    ScanWithoutPlaceholders(s, 0);
  }

  /** In particular a path without `{` has no placeholder. */
  lemma BracelessPath(s: string)
    requires forall x :: 0 <= x < |s| ==> s[x] != '{'
    ensures ParsePath(s) == Parsed(s, [])
  {
    ScanSkipsText(s, 0, |s|);
    assert s[0..|s|] == s;
  }

  /** Every placeholder name stops before the first `}`, and every literal
      runs up to the next `{` or the end; neither crosses a line. */
  lemma {:induction false} PlaceholderShape(s: string, i: nat)
    requires i <= |s|
    ensures forall x :: x in Scan(s, i).placeholders ==>
      && (forall c :: c in x.name ==> c != '}' && !IsLineTerminator(c))
      && (forall c :: c in x.literal ==> c != '{' && !IsLineTerminator(c))
    decreases |s| - i
  {
    if i < |s| {
      var m := MatchAt(s, i);
      if m.Some? {
        var k, j := m.value.0, m.value.1;
        ScanMatchStep(s, i, k, j);
        MatchAtInterior(s, i);
        PlaceholderShape(s, j);
        SliceChars(s, i + 1, k);
        SliceChars(s, k + 1, j);
      } else {
        ScanNoMatchStep(s, i);
        PlaceholderShape(s, i + 1);
      }
    }
  }

  lemma SliceChars(s: string, a: nat, b: nat)
    requires a <= b <= |s|
    ensures forall c :: c in s[a..b] ==> exists x :: a <= x < b && s[x] == c
  {
    forall c | c in s[a..b] ensures exists x :: a <= x < b && s[x] == c {
      var y :| 0 <= y < b - a && s[a..b][y] == c;
      assert s[a + y] == c;
    }
  }

  /** Where no `}` follows, nothing matches: the rest is all head. */
  lemma {:induction false} ScanUnclosed(s: string, i: nat)
    requires i <= |s|
    requires forall x :: i <= x < |s| ==> s[x] != '}'
    ensures Scan(s, i) == Parsed(s[i..], [])
    decreases |s| - i
  {
    if i < |s| {
      ScanUnclosed(s, i + 1);
      var k := NextStopOrBreak(s, i + 1, '}');
      assert k == |s| || IsLineTerminator(s[k]);
      assert MatchAt(s, i).None?;
      assert s[i..] == [s[i]] + s[i + 1..];
    }
  }

  /** The round trip needs its condition: text after a `{` that no `}` follows
      is moved into the head, before the substitutions. */
  lemma {:induction false} UnclosedTailMovesToHead()
    ensures ParsePath("/a/{x}/b{c") == Parsed("/a/{c", [Placeholder("x", "/b")])
    ensures Reassemble(ParsePath("/a/{x}/b{c")) != "/a/{x}/b{c"
  {
    var s := "/a/{x}/b{c";
    ScanUnclosed(s, 8);
    assert s[8..] == "{c";
    assert NextStopOrBreak(s, 4, '}') == 5;
    assert NextStopOrBreak(s, 6, '{') == 8 by {
      assert NextStopOrBreak(s, 7, '{') == 8;
    }
    assert MatchAt(s, 3) == Some((5, 8));
    assert s[4..5] == "x" && s[6..8] == "/b";
    assert Scan(s, 3) == Parsed("{c", [Placeholder("x", "/b")]);
    ScanSkipsText(s, 0, 3);
    assert s[0..3] == "/a/";
    assert Reassemble(ParsePath(s))[4] == 'c';
  }
}
