/**
 * parse_line: splitting one input line into a NULL-terminated argument vector.
 *
 * The pure side is the specification `Tokens`, with the facts the rest of the
 * shell relies on: every token is a non-empty run of non-delimiters, blank lines
 * give no token, and a line laid out as words separated by delimiter runs gives
 * exactly those words back (and every line is such a layout of its tokens).
 * The imperative side models strtok and the growing token array of parse_line.
 */
module Tokenizer {
  import opened Wrappers

  /** MAX_NUM_ARGS: the initial capacity of the token array and the step by which it grows. */
  const MaxNumArgs: nat := 64

  /** The delimiter set handed to strtok: space, tab and newline. */
  predicate IsDelim(c: char) {
    c == ' ' || c == '\t' || c == '\n'
  }

  /** A token: non-empty and free of delimiters. */
  predicate IsWord(w: string) {
    |w| > 0 && forall k :: 0 <= k < |w| ==> !IsDelim(w[k])
  }

  /** A run made of delimiters only (possibly empty). */
  predicate AllDelims(g: string) {
    forall k :: 0 <= k < |g| ==> IsDelim(g[k])
  }

  /** The C string a buffer holds: the characters before its first NUL. */
  function CStr(s: string): (r: string)
    ensures |r| <= |s| && r == s[..|r|]
    ensures forall k :: 0 <= k < |r| ==> r[k] != '\0'
    ensures |r| < |s| ==> s[|r|] == '\0'
  {
    if s == [] || s[0] == '\0' then [] else [s[0]] + CStr(s[1..])
  }

  /** Length of the longest delimiter-free prefix of `s`. */
  function WordLen(s: string): (n: nat)
    ensures n <= |s|
    ensures forall k :: 0 <= k < n ==> !IsDelim(s[k])
    ensures n < |s| ==> IsDelim(s[n])
  {
    if s == [] || IsDelim(s[0]) then 0 else 1 + WordLen(s[1..])
  }

  /** The tokens strtok returns for `s`, in order: delimiters are skipped, each maximal
      run of non-delimiters is one token. */
  function Tokens(s: string): seq<string>
    decreases |s|
  {
    if s == [] then []
    else if IsDelim(s[0]) then Tokens(s[1..])
    else
      var n := WordLen(s);
      assert n != 0;
      [s[..n]] + Tokens(s[n..])
  }

  /** Token shape: every token is non-empty and has no space, tab or newline in it. */
  lemma {:induction false} TokensAreWords(s: string)
    ensures forall k :: 0 <= k < |Tokens(s)| ==> IsWord(Tokens(s)[k])
    decreases |s|
  {
    if s != [] {
      if IsDelim(s[0]) {
        TokensAreWords(s[1..]);
      } else {
        var n := WordLen(s);
        TokensAreWords(s[n..]);
        assert Tokens(s) == [s[..n]] + Tokens(s[n..]);
      }
    }
  }

  /** The delimiter-free prefix is determined by where the first delimiter is. */
  lemma WordLenUnique(s: string, m: nat)
    requires m <= |s|
    requires forall k :: 0 <= k < m ==> !IsDelim(s[k])
    requires m < |s| ==> IsDelim(s[m])
    ensures WordLen(s) == m
  {
  }

  /** A token followed by a delimiter (or by nothing) is emitted whole. */
  lemma {:induction false} TokensWordThen(w: string, r: string)
    requires IsWord(w)
    requires r == [] || IsDelim(r[0])
    ensures Tokens(w + r) == [w] + Tokens(r)
  {
    var s := w + r;
    WordLenUnique(s, |w|);
    assert s[..|w|] == w;
    assert s[|w|..] == r;
  }

  /** Leading delimiters are skipped. */
  lemma {:induction false} TokensSkipGap(g: string, r: string)
    requires AllDelims(g)
    ensures Tokens(g + r) == Tokens(r)
    decreases |g|
  {
    if g != [] {
      assert IsDelim((g + r)[0]);
      assert Tokens(g + r) == Tokens((g + r)[1..]);
      assert (g + r)[1..] == g[1..] + r;
      assert AllDelims(g[1..]) by {
        assert forall k :: 0 <= k < |g[1..]| ==> g[1..][k] == g[k + 1];
      }
      TokensSkipGap(g[1..], r);
    } else {
      assert g + r == r;
    }
  }

  /** Empty lines: a line gives no token exactly when it is made of delimiters only. */
  lemma {:induction false} BlankIffNoTokens(s: string)
    ensures Tokens(s) == [] <==> AllDelims(s)
    decreases |s|
  {
    if s != [] {
      if IsDelim(s[0]) {
        BlankIffNoTokens(s[1..]);
        if AllDelims(s[1..]) {
          assert forall k :: 1 <= k < |s| ==> s[k] == s[1..][k - 1];
        } else {
          var k :| 0 <= k < |s[1..]| && !IsDelim(s[1..][k]);
          assert !IsDelim(s[k + 1]);
        }
      } else {
        assert !IsDelim(s[0]);
      }
    }
  }

  /** The inductive step of TokensConcat when `a` starts with a delimiter. */
  lemma TokensConcatDelim(a: string, b: string)
    requires a != [] && IsDelim(a[0])
    requires Tokens(a[1..] + b) == Tokens(a[1..]) + Tokens(b)
    ensures Tokens(a + b) == Tokens(a) + Tokens(b)
  {
    assert (a + b)[1..] == a[1..] + b;
  }

  /** The inductive step of TokensConcat when `a` starts with a word that a delimiter
      inside `a` ends. */
  lemma TokensConcatWord(a: string, b: string)
    requires a != [] && !IsDelim(a[0]) && WordLen(a) < |a|
    requires Tokens(a[WordLen(a)..] + b) == Tokens(a[WordLen(a)..]) + Tokens(b)
    ensures Tokens(a + b) == Tokens(a) + Tokens(b)
  {
    var n := WordLen(a);
    WordLenUnique(a + b, n);
    assert (a + b)[..n] == a[..n];
    assert (a + b)[n..] == a[n..] + b;
    assert Tokens(a) == [a[..n]] + Tokens(a[n..]);
    assert Tokens(a + b) == [a[..n]] + (Tokens(a[n..]) + Tokens(b));
  }

  /** Splitting a line after a delimiter splits its tokens at the same place. */
  lemma {:induction false} TokensConcat(a: string, b: string)
    requires a == [] || IsDelim(a[|a| - 1])
    ensures Tokens(a + b) == Tokens(a) + Tokens(b)
    decreases |a|
  {
    if a == [] {
      assert a + b == b;
    } else if IsDelim(a[0]) {
      TokensConcat(a[1..], b);
      TokensConcatDelim(a, b);
    } else {
      var n := WordLen(a);
      assert n < |a|;
      TokensConcat(a[n..], b);
      TokensConcatWord(a, b);
    }
  }

  /** A line built from words: gaps[0] + words[0] + gaps[1] + ... + words[n-1] + gaps[n]. */
  function Layout(words: seq<string>, gaps: seq<string>): string
    requires |gaps| == |words| + 1
  {
    if words == [] then gaps[0]
    else gaps[0] + words[0] + Layout(words[1..], gaps[1..])
  }

  /** The gaps of a layout: all delimiters, and non-empty between two words. */
  predicate GoodGaps(gaps: seq<string>, n: nat) {
    |gaps| == n + 1 &&
    (forall k :: 0 <= k < |gaps| ==> AllDelims(gaps[k])) &&
    (forall k :: 0 < k < n ==> gaps[k] != [])
  }

  lemma {:induction false} LayoutStart(words: seq<string>, gaps: seq<string>)
    requires GoodGaps(gaps, |words|)
    requires gaps[0] != [] || words == []
    ensures var s := Layout(words, gaps); s == [] || IsDelim(s[0])
  {
    if gaps[0] != [] {
      assert Layout(words, gaps)[0] == gaps[0][0];
    }
  }

  /** Token count and order: a line of N words separated by delimiter runs yields
      exactly those N words, whatever N is. */
  lemma {:induction false} TokensOfLayout(words: seq<string>, gaps: seq<string>)
    requires forall k :: 0 <= k < |words| ==> IsWord(words[k])
    requires GoodGaps(gaps, |words|)
    ensures Tokens(Layout(words, gaps)) == words
    decreases |words|
  {
    if words == [] {
      BlankIffNoTokens(gaps[0]);
    } else {
      var rest := Layout(words[1..], gaps[1..]);
      assert GoodGaps(gaps[1..], |words[1..]|) by {
        assert forall k :: 0 < k < |words[1..]| ==> gaps[1..][k] == gaps[k + 1];
      }
      TokensOfLayout(words[1..], gaps[1..]);
      LayoutStart(words[1..], gaps[1..]);
      TokensWordThen(words[0], rest);
      assert gaps[0] + words[0] + rest == gaps[0] + (words[0] + rest);
      TokensSkipGap(gaps[0], words[0] + rest);
    }
  }

  /** The gaps around the tokens of `s`: the delimiter runs strtok skips. */
  function Gaps(s: string): (gaps: seq<string>)
    ensures |gaps| == |Tokens(s)| + 1
    decreases |s|
  {
    if s == [] then [[]]
    else if IsDelim(s[0]) then
      var g := Gaps(s[1..]);
      [[s[0]] + g[0]] + g[1..]
    else
      var n := WordLen(s);
      assert n != 0;
      [[]] + Gaps(s[n..])
  }

  /** Prepending a character to the first gap prepends it to the layout. */
  lemma LayoutConsGap(c: char, words: seq<string>, gaps: seq<string>)
    requires |gaps| == |words| + 1
    ensures Layout(words, [[c] + gaps[0]] + gaps[1..]) == [c] + Layout(words, gaps)
  {
    var gaps' := [[c] + gaps[0]] + gaps[1..];
    assert gaps'[1..] == gaps[1..];
  }

  lemma GoodGapsConsGap(c: char, gaps: seq<string>, n: nat)
    requires GoodGaps(gaps, n) && IsDelim(c)
    ensures GoodGaps([[c] + gaps[0]] + gaps[1..], n)
  {
    var gaps' := [[c] + gaps[0]] + gaps[1..];
    assert forall k :: 0 < k < |gaps'| ==> gaps'[k] == gaps[k];
    assert AllDelims(gaps'[0]) by {
      assert forall k :: 1 <= k < |gaps'[0]| ==> gaps'[0][k] == gaps[0][k - 1];
    }
  }

  /** A word in front of a layout, with an empty gap before it. */
  lemma LayoutConsWord(w: string, words: seq<string>, gaps: seq<string>)
    requires |gaps| == |words| + 1
    ensures Layout([w] + words, [[]] + gaps) == w + Layout(words, gaps)
  {
    assert ([w] + words)[1..] == words;
    assert ([[]] + gaps)[1..] == gaps;
  }

  lemma GoodGapsConsWord(gaps: seq<string>, n: nat)
    requires GoodGaps(gaps, n)
    requires n > 0 ==> gaps[0] != []
    ensures GoodGaps([[]] + gaps, n + 1)
  {
    var gaps' := [[]] + gaps;
    assert forall k :: 0 < k < |gaps'| ==> gaps'[k] == gaps[k - 1];
  }

  /** Every line is the layout of its own tokens, with well-formed gaps. Together with
      TokensOfLayout: Tokens(s) == ws exactly when s is a layout of the words ws. */
  lemma {:induction false} LayoutOfTokens(s: string)
    ensures GoodGaps(Gaps(s), |Tokens(s)|)
    ensures Layout(Tokens(s), Gaps(s)) == s
    ensures s != [] && IsDelim(s[0]) ==> Gaps(s)[0] != []
    decreases |s|
  {
    if s == [] {
    } else if IsDelim(s[0]) {
      var r := s[1..];
      LayoutOfTokens(r);
      GoodGapsConsGap(s[0], Gaps(r), |Tokens(r)|);
      LayoutConsGap(s[0], Tokens(r), Gaps(r));
      assert s == [s[0]] + r;
    } else {
      var n := WordLen(s);
      var r := s[n..];
      LayoutOfTokens(r);
      if Tokens(r) != [] {
        BlankIffNoTokens(r);
      }
      GoodGapsConsWord(Gaps(r), |Tokens(r)|);
      LayoutConsWord(s[..n], Tokens(r), Gaps(r));
      assert s == s[..n] + r;
    }
  }

  /** Number of leading non-NULL entries of an argument vector: the index of its sentinel. */
  function Argc(a: seq<Option<string>>): (n: nat)
    ensures n <= |a|
    ensures forall k :: 0 <= k < n ==> a[k].Some?
    ensures n < |a| ==> a[n].None?
  {
    if a == [] || a[0].None? then 0 else 1 + Argc(a[1..])
  }

  lemma ArgcUnique(a: seq<Option<string>>, m: nat)
    requires m < |a| && a[m].None?
    requires forall k :: 0 <= k < m ==> a[k].Some?
    ensures Argc(a) == m
  {
  }

  /** The strings of an argument vector, up to (not including) its sentinel. */
  function Argv(a: seq<Option<string>>): (args: seq<string>)
    ensures |args| == Argc(a)
    ensures forall k :: 0 <= k < |args| ==> a[k] == Some(args[k])
  {
    seq(Argc(a), k requires 0 <= k < Argc(a) => a[k].value)
  }

  /** A well-formed argument vector: a sentinel ends it within the array. */
  predicate IsArgVector(a: seq<Option<string>>) {
    Argc(a) < |a|
  }

  /** The entries Some(ws[0]), ..., Some(ws[n-1]), None form the argument vector ws. */
  lemma ArgvOf(a: seq<Option<string>>, ws: seq<string>)
    requires |ws| < |a| && a[|ws|] == None
    requires forall k :: 0 <= k < |ws| ==> a[k] == Some(ws[k])
    ensures IsArgVector(a) && Argv(a) == ws
  {
    ArgcUnique(a, |ws|);
  }

  /** Tokens from a delimiter on are the tokens from the next character on. */
  lemma TokensAtDelim(s: string, i: nat)
    requires i < |s| && IsDelim(s[i])
    ensures Tokens(s[i..]) == Tokens(s[i + 1..])
  {
    assert s[i..][1..] == s[i + 1..];
  }

  /** Tokens from the start of a word on: the word, then the tokens after it. */
  lemma TokensAtWord(s: string, i: nat, j: nat)
    requires i < j <= |s|
    requires forall k :: i <= k < j ==> !IsDelim(s[k])
    requires j < |s| ==> IsDelim(s[j])
    ensures Tokens(s[i..]) == [s[i..j]] + Tokens(s[j..])
  {
    var t := s[i..];
    WordLenUnique(t, j - i);
    assert t[..j - i] == s[i..j];
    assert t[j - i..] == s[j..];
  }

  /** strtok's first scan (strspn): step over the delimiters at `from`. */
  method SkipDelims(s: string, from: nat) returns (i: nat)
    requires from <= |s|
    ensures from <= i <= |s| && (i < |s| ==> !IsDelim(s[i]))
    ensures Tokens(s[from..]) == Tokens(s[i..])
  {
    i := from;
    while i < |s| && IsDelim(s[i])
      invariant from <= i <= |s|
      invariant Tokens(s[from..]) == Tokens(s[i..])
    {
      TokensAtDelim(s, i);
      i := i + 1;
    }
  }

  /** strtok's second scan (strcspn): the end of the word that starts at `i`. */
  method WordEnd(s: string, i: nat) returns (j: nat)
    requires i < |s| && !IsDelim(s[i])
    ensures i < j <= |s| && (j < |s| ==> IsDelim(s[j]))
    ensures Tokens(s[i..]) == [s[i..j]] + Tokens(s[j..])
  {
    j := i;
    while j < |s| && !IsDelim(s[j])
      invariant i <= j <= |s|
      invariant forall k :: i <= k < j ==> !IsDelim(s[k])
    {
      j := j + 1;
    }
    TokensAtWord(s, i, j);
  }

  /** One strtok call on `s` from offset `from` (the saved pointer): skip delimiters;
      at end of string there is no token; otherwise the token runs to the next
      delimiter, which strtok overwrites and steps past for the next call. */
  method StrTok(s: string, from: nat) returns (token: Option<(nat, nat)>, next: nat)
    requires from <= |s|
    ensures from <= next <= |s|
    ensures token.None? ==> Tokens(s[from..]) == [] && next == |s|
    ensures token.Some? ==>
      from <= token.value.0 < token.value.1 <= next && from < next &&
      Tokens(s[from..]) == [s[token.value.0..token.value.1]] + Tokens(s[next..])
    ensures token.Some? ==> next == if token.value.1 < |s| then token.value.1 + 1 else |s|
  {
    var i := SkipDelims(s, from);
    if i == |s| {
      assert s[i..] == [];
      return None, i;
    }
    var j := WordEnd(s, i);
    if j < |s| {
      TokensAtDelim(s, j);
      next := j + 1;
    } else {
      next := j;
    }
    assert Tokens(s[from..]) == [s[i..j]] + Tokens(s[next..]);
    token := Some((i, j));
  }

  /** realloc of the token array to `size` slots: the first prev.Length entries are kept. */
  method Realloc(prev: array<Option<string>>, size: nat) returns (grown: array<Option<string>>)
    requires prev.Length <= size
    ensures fresh(grown)
    ensures grown.Length == size
    ensures forall k :: 0 <= k < prev.Length ==> grown[k] == prev[k]
  {
    grown := new Option<string>[size](_ => None);
    var k := 0;
    while k < prev.Length
      invariant 0 <= k <= prev.Length
      invariant forall m :: 0 <= m < k ==> grown[m] == prev[m]
    {
      grown[k] := prev[k];
      k := k + 1;
    }
  }

  /** The capacity of the token array once `position` tokens are stored: the least
      multiple of MaxNumArgs above `position`. */
  function Capacity(position: nat): (cap: nat)
    ensures position < cap <= position + MaxNumArgs && cap % MaxNumArgs == 0
  {
    MaxNumArgs * (position / MaxNumArgs + 1)
  }

  /** Lines 46-58 of parse_line: store one token, then grow the array by MaxNumArgs
      slots when the next free index has reached the capacity. */
  method PushToken(tokens: array<Option<string>>, position: nat, bufsize: nat, token: string)
    returns (tokens': array<Option<string>>, position': nat, bufsize': nat)
    requires bufsize == tokens.Length == Capacity(position)
    modifies tokens
    ensures position' == position + 1
    ensures bufsize' == tokens'.Length == Capacity(position')
    ensures bufsize' == if position' < bufsize then bufsize else bufsize + MaxNumArgs
    ensures tokens' == tokens || fresh(tokens')
    ensures forall k :: 0 <= k < position ==> tokens'[k] == old(tokens[k])
    ensures tokens'[position] == Some(token)
  {
    tokens[position] := Some(token);
    position' := position + 1;
    bufsize' := bufsize;
    tokens' := tokens;
    if position' >= bufsize' {
      bufsize' := bufsize' + MaxNumArgs;
      tokens' := Realloc(tokens, bufsize');
    }
  }

  /** What the loop of parse_line keeps: the first `position` tokens of `s` are stored in
      an array of capacity Capacity(position); `token` is the next one, if any, and the
      tokens after it start at `next`. */
  ghost predicate Storing(s: string, tokens: array<Option<string>>, position: nat, bufsize: nat,
                          token: Option<(nat, nat)>, next: nat)
    reads tokens
  {
    var all := Tokens(s);
    next <= |s| && position <= |all| &&
    bufsize == tokens.Length == Capacity(position) &&
    (forall k :: 0 <= k < position ==> tokens[k] == Some(all[k])) &&
    (token.None? ==> position == |all|) &&
    (token.Some? ==>
       (token.value.0 < token.value.1 <= next && position < |all| &&
        all[position] == s[token.value.0..token.value.1] && all[position + 1..] == Tokens(s[next..])))
  }

  /** Lines 46-60 of parse_line: store the current token, grow if needed, ask strtok for
      the next one. */
  method StoreNext(s: string, tokens: array<Option<string>>, position: nat, bufsize: nat,
                   token: Option<(nat, nat)>, next: nat)
    returns (tokens': array<Option<string>>, position': nat, bufsize': nat,
             token': Option<(nat, nat)>, next': nat)
    requires token.Some? && Storing(s, tokens, position, bufsize, token, next)
    modifies tokens
    ensures position' == position + 1
    ensures tokens' == tokens || fresh(tokens')
    ensures Storing(s, tokens', position', bufsize', token', next')
  {
    ghost var all := Tokens(s);
    ghost var rest := all[position + 1..];
    var (start, end) := token.value;
    tokens', position', bufsize' := PushToken(tokens, position, bufsize, s[start..end]);
    token', next' := StrTok(s, next);
    assert rest == all[position'..];
    if token'.Some? {
      assert all[position'] == rest[0] && all[position' + 1..] == rest[1..];
    }
  }

  /** Lines 32-61 of parse_line: store every token strtok hands out, growing the array
      whenever it fills up. */
  method StoreTokens(s: string) returns (tokens: array<Option<string>>, position: nat)
    ensures fresh(tokens)
    ensures position == |Tokens(s)|
    ensures tokens.Length == Capacity(position)
    ensures forall k :: 0 <= k < position ==> tokens[k] == Some(Tokens(s)[k])
  {
    var bufsize := MaxNumArgs;
    position := 0;
    tokens := new Option<string>[bufsize](_ => None);
    var token: Option<(nat, nat)>, next: nat := StrTok(s, 0);
    assert s[0..] == s;
    while token.Some?
      invariant fresh(tokens)
      invariant Storing(s, tokens, position, bufsize, token, next)
      decreases |Tokens(s)| - position
    {
      tokens, position, bufsize, token, next := StoreNext(s, tokens, position, bufsize, token, next);
    }
  }

  /** parse_line: the tokens of the line's C string, in order, stored in an array whose
      capacity started at MaxNumArgs and grew by MaxNumArgs whenever it filled up, so
      the NULL sentinel always has a slot after the last token. */
  method ParseLine(line: string) returns (tokens: array<Option<string>>, position: nat)
    ensures fresh(tokens)
    ensures position == |Tokens(CStr(line))|
    ensures position < tokens.Length == Capacity(position)
    ensures forall k :: 0 <= k < position ==> tokens[k] == Some(Tokens(CStr(line))[k])
    ensures tokens[position] == None
    ensures IsArgVector(tokens[..]) && Argv(tokens[..]) == Tokens(CStr(line))
  {
    tokens, position := StoreTokens(CStr(line));
    tokens[position] := None;
    ArgvOf(tokens[..], Tokens(CStr(line)));
  }
}
