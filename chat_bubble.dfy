/**
 * The chat bubble's markdown-lite renderer (`renderMarkdown`): four global
 * regular-expression replacements applied in turn, each modelled as a
 * left-to-right scan with the matching rules of JavaScript regular
 * expressions (lazy `.*?`, `.` stopping at line terminators, `^` and `$`
 * at line boundaries in multiline mode, greedy `\s+` with backtracking).
 */
module ChatBubble {
  import opened Wrappers
  import opened Text

  /** `s` has no character `c`. */
  predicate Lacks(s: string, c: char) {
    forall j :: 0 <= j < |s| ==> s[j] != c
  }

  /**
   * Where the lazy `(.*?)d` at the start of `t` stops: the first position
   * where `d` occurs, provided no line terminator comes before it; none
   * when a line terminator or the end of `t` comes first.
   */
  function FindClose(t: string, d: string): (r: Option<nat>)
    ensures r.Some? ==> r.value + |d| <= |t|
    decreases |t|
  {
    if StartsWith(t, d) then Some(0)
    else if |t| == 0 || IsLineTerminator(t[0]) then None
    else match FindClose(t[1..], d)
      case Some(k) => Some(k + 1)
      case None => None
  }

  /**
   * `FindClose` is the lazy match: what it finds is an occurrence of `d`
   * with no line terminator and no earlier occurrence before it; when it
   * finds nothing, a line terminator comes before every occurrence.
   */
  lemma {:induction false} FindCloseSpec(t: string, d: string)
    ensures var r := FindClose(t, d);
      && (r.Some? ==> OccursAt(t, d, r.value))
      && (r.Some? ==> forall j :: 0 <= j < r.value ==> !IsLineTerminator(t[j]) && !OccursAt(t, d, j))
      && (r.None? ==> forall j :: 0 <= j <= |t| && OccursAt(t, d, j) ==> exists m :: 0 <= m < j && IsLineTerminator(t[m]))
    decreases |t|
  {
    if !StartsWith(t, d) && |t| > 0 && !IsLineTerminator(t[0]) {
      var u := t[1..];
      FindCloseSpec(u, d);
      forall j | 1 <= j <= |t|
        ensures OccursAt(t, d, j) == OccursAt(u, d, j - 1)
      {
        OccursShift(t, d, j);
      }
      var r := FindClose(t, d);
      if r.None? {
        forall j | 0 <= j <= |t| && OccursAt(t, d, j)
          ensures exists m :: 0 <= m < j && IsLineTerminator(t[m])
        {
          var m :| 0 <= m < j - 1 && IsLineTerminator(u[m]);
          assert IsLineTerminator(t[m + 1]);
        }
      }
    }
  }

  /** An occurrence after the first character is an occurrence in the rest. */
  lemma OccursShift(t: string, d: string, j: int)
    requires 1 <= j <= |t|
    ensures OccursAt(t, d, j) == OccursAt(t[1..], d, j - 1)
  {
    if j + |d| <= |t| {
      var u := t[1..];
      var v, w := t[j..j + |d|], u[j - 1..j - 1 + |d|];
      assert |v| == |w|;
      assert forall q :: 0 <= q < |v| ==> v[q] == t[j + q] == w[q];
      assert v == w;
    }
  }

  /**
   * `s.replace(/d(.*?)d/g, open + '$1' + close)`: where `d` starts and a
   * closing `d` follows on the same line, the pair and what it encloses
   * become `open`, the enclosed text and `close`, and the scan goes on
   * after the closing `d`; elsewhere the character is copied.
   */
  function ReplacePairs(s: string, d: string, open: string, close: string): string
    requires |d| > 0
    decreases |s|
  {
    if |s| == 0 then ""
    else if StartsWith(s, d) then
      match FindClose(s[|d|..], d)
      case Some(k) => open + s[|d|..|d| + k] + close + ReplacePairs(s[|d| + k + |d|..], d, open, close)
      case None => [s[0]] + ReplacePairs(s[1..], d, open, close)
    else [s[0]] + ReplacePairs(s[1..], d, open, close)
  }

  /** The first pass: `**x**` becomes `<strong>x</strong>`. */
  function Bold(s: string): string {
    ReplacePairs(s, "**", "<strong>", "</strong>")
  }

  /** The second pass: `*x*` becomes `<em>x</em>`. */
  function Italic(s: string): string {
    ReplacePairs(s, "*", "<em>", "</em>")
  }

  /** The length of the run of characters satisfying `p` that starts at `i`. */
  function Span(s: string, i: nat, p: char -> bool): (n: nat)
    requires i <= |s|
    ensures i + n <= |s|
    ensures forall j :: i <= j < i + n ==> p(s[j])
    ensures i + n < |s| ==> !p(s[i + n])
    decreases |s| - i
  {
    if i < |s| && p(s[i]) then 1 + Span(s, i + 1, p) else 0
  }

  /** The last position in `[lo, hi)` that is not a line terminator, if any. */
  function LastOnLine(s: string, lo: nat, hi: nat): (r: Option<nat>)
    requires lo <= hi <= |s|
    ensures r.Some? ==> lo <= r.value < hi && !IsLineTerminator(s[r.value])
    ensures r.Some? ==> forall c :: r.value < c < hi ==> IsLineTerminator(s[c])
    ensures r.None? ==> forall c :: lo <= c < hi ==> IsLineTerminator(s[c])
    decreases hi - lo
  {
    if lo == hi then None
    else if !IsLineTerminator(s[hi - 1]) then Some(hi - 1)
    else LastOnLine(s, lo, hi - 1)
  }

  /** The `.` class: any character but a line terminator. */
  predicate NotLineTerminator(c: char) {
    !IsLineTerminator(c)
  }

  /**
   * A match of `\d+\.\s+(.+)$` at the start of `s`: digits up to the dot
   * at `dot`, white space up to `content`, and the group
   * `s[content..end]`, which runs to the end of the line.
   */
  predicate ListMatch(s: string, dot: int, content: int, end: int) {
    && 0 < dot < |s|
    && (forall j :: 0 <= j < dot ==> IsDigit(s[j]))
    && s[dot] == '.'
    && dot + 1 < content < end <= |s|
    && (forall j :: dot + 1 <= j < content ==> IsWhitespace(s[j]))
    && (forall j :: content <= j < end ==> !IsLineTerminator(s[j]))
    && (end == |s| || IsLineTerminator(s[end]))
  }

  /** The positions of a list-item match: the dot, the start of the group and its end. */
  datatype Item = Item(dot: nat, content: nat, end: nat)

  /**
   * The match of `\d+\.\s+(.+)$` the regular-expression engine finds at the
   * start of `s`: the longest digit run, then the longest white-space run
   * (greedy `\s+`), given back only as far as the group needs a character
   * of its own, then the rest of the line. Whatever it finds is a match;
   * `ListItemComplete` shows it finds one whenever there is one.
   */
  function ListItem(s: string): (r: Option<Item>)
    ensures r.Some? ==> ListMatch(s, r.value.dot, r.value.content, r.value.end)
  {
    var a := Span(s, 0, IsDigit);
    if a == 0 || a == |s| || s[a] != '.' then None
    else
      var b := a + 1 + Span(s, a + 1, IsWhitespace);
      if b == a + 1 then None
      else
        match (if b < |s| then Some(b) else LastOnLine(s, a + 2, b))
        case None => None
        case Some(c) => Some(Item(a, c, c + Span(s, c, NotLineTerminator)))
  }

  /** Whenever the pattern matches at the start of `s`, `ListItem` finds a match, with the group starting no earlier. */
  lemma ListItemComplete(s: string, dot: int, content: int, end: int)
    requires ListMatch(s, dot, content, end)
    ensures ListItem(s).Some? && content <= ListItem(s).value.content
  {
    DotIsFirstNonDigit(s, dot);
    assert !IsLineTerminator(s[content]);
  }

  /** In a match, the dot is the first character after the leading digits. */
  lemma DotIsFirstNonDigit(s: string, dot: int)
    requires 0 < dot < |s|
    requires forall j :: 0 <= j < dot ==> IsDigit(s[j])
    requires s[dot] == '.'
    ensures dot == Span(s, 0, IsDigit)
  {
  }

  /** What a list item starts with: the `div` and the bullet as the source writes it (U+00E2 U+20AC U+00A2). */
  const ListOpen: string := "<div class=\"ml-4 mb-1\">\U{E2}\U{20AC}\U{A2} "
  const ListClose: string := "</div>"

  /**
   * The third pass, `s.replace(/^\d+\.\s+(.+)$/gm, ...)`, on a rest `s` of
   * the text that `atLineStart` says begins a line: at a line start where
   * the pattern matches, the match becomes a list item holding its group,
   * and the scan goes on after the match; elsewhere the character is copied.
   */
  function ListPass(s: string, atLineStart: bool): string
    decreases |s|
  {
    if |s| == 0 then ""
    else if atLineStart && ListItem(s).Some? then
      var it := ListItem(s).value;
      ListOpen + s[it.content..it.end] + ListClose + ListPass(s[it.end..], false)
    else [s[0]] + ListPass(s[1..], IsLineTerminator(s[0]))
  }

  /**
   * The last pass, `s.replace(/\n/g, '<br />')`: the result has no line
   * feed, and a string without line feeds comes back unchanged.
   */
  function Newlines(s: string): (r: string)
    ensures Lacks(r, '\n')
    ensures Lacks(s, '\n') ==> r == s
  {
    if s == [] then []
    else (if s[0] == '\n' then "<br />" else [s[0]]) + Newlines(s[1..])
  }

  /** `renderMarkdown`: the four passes in order; the result never contains a line feed. */
  function Render(text: string): (r: string)
    ensures Lacks(r, '\n')
  {
    Newlines(ListPass(Italic(Bold(text)), true))
  }

  /** A front stretch without the delimiter's first character is copied, and the rest goes through the pass on its own. */
  lemma {:induction false} PlainFront(m: string, rest: string, d: string, open: string, close: string)
    requires |d| > 0 && Lacks(m, d[0])
    ensures ReplacePairs(m + rest, d, open, close) == m + ReplacePairs(rest, d, open, close)
    decreases |m|
  {
    if |m| > 0 {
      var s := m + rest;
      assert s[0] == m[0];
      FirstCharDiffers(s, d);
      assert s[1..] == m[1..] + rest;
      assert ReplacePairs(s, d, open, close) == [s[0]] + ReplacePairs(s[1..], d, open, close);
      PlainFront(m[1..], rest, d, open, close);
      var r := ReplacePairs(rest, d, open, close);
      assert ReplacePairs(s[1..], d, open, close) == m[1..] + r;
      assert [m[0]] + (m[1..] + r) == m + r by {
        assert [m[0]] + m[1..] == m;
      }
      assert ReplacePairs(s, d, open, close) == m + r;
    } else {
      assert m + rest == rest;
      assert m + ReplacePairs(rest, d, open, close) == ReplacePairs(rest, d, open, close);
    }
  }

  /** Text without the delimiter's first character passes through a pair pass unchanged. */
  lemma PairsPlain(s: string, d: string, open: string, close: string)
    requires |d| > 0 && Lacks(s, d[0])
    ensures ReplacePairs(s, d, open, close) == s
  {
    PlainFront(s, "", d, open, close);
    assert s + "" == s;
  }

  /** The lazy scan over one line without the delimiter's first character stops at the delimiter that follows it. */
  lemma {:induction false} CloseAfter(x: string, d: string, tail: string)
    requires |d| > 0 && Lacks(x, d[0]) && IsOneLine(x)
    ensures FindClose(x + d + tail, d) == Some(|x|)
    decreases |x|
  {
    var t := x + d + tail;
    if |x| == 0 {
      assert t[..|d|] == d;
    } else {
      assert t[0] == x[0];
      assert t[1..] == x[1..] + d + tail;
      CloseAfter(x[1..], d, tail);
    }
  }

  /** The lazy scan over a stretch without the delimiter's first character stops for good at a line feed. */
  lemma {:induction false} NoCloseAcrossLine(x: string, d: string, tail: string)
    requires |d| > 0 && d[0] != '\n' && Lacks(x, d[0])
    ensures FindClose(x + "\n" + tail, d) == None
    decreases |x|
  {
    var t := x + "\n" + tail;
    if |x| == 0 {
      assert t[0] == '\n';
    } else {
      assert t[0] == x[0];
      assert t[1..] == x[1..] + "\n" + tail;
      NoCloseAcrossLine(x[1..], d, tail);
    }
  }

  /** A pair at the front, around one line without the delimiter's first character, is replaced, and the rest goes through the pass on its own. */
  lemma PairFront(x: string, rest: string, d: string, open: string, close: string)
    requires |d| > 0 && Lacks(x, d[0]) && IsOneLine(x)
    ensures ReplacePairs(d + x + d + rest, d, open, close) == open + x + close + ReplacePairs(rest, d, open, close)
  {
    var s := d + x + d + rest;
    assert s[..|d|] == d;
    assert s[|d|..] == x + d + rest;
    CloseAfter(x, d, rest);
    assert s[|d|..|d| + |x|] == x;
    assert s[|d| + |x| + |d|..] == rest;
  }

  /** `**x**` becomes `<strong>x</strong>` when `x` is one line without `*`. */
  lemma BoldSpan(x: string)
    requires Lacks(x, '*') && IsOneLine(x)
    ensures Bold("**" + x + "**") == "<strong>" + x + "</strong>"
  {
    PairFront(x, "", "**", "<strong>", "</strong>");
    assert "**" + x + "**" + "" == "**" + x + "**";
  }

  /** `*x*` becomes `<em>x</em>` when `x` is one line without `*`. */
  lemma ItalicSpan(x: string)
    requires Lacks(x, '*') && IsOneLine(x)
    ensures Italic("*" + x + "*") == "<em>" + x + "</em>"
  {
    PairFront(x, "", "*", "<em>", "</em>");
    assert "*" + x + "*" + "" == "*" + x + "*";
  }

  /**
   * The match is lazy: in `**a**m**b**` the first pair closes at the first
   * `**`, so two bold spans come out, with `m` between them.
   */
  lemma TwoBoldSpans(a: string, m: string, b: string)
    requires Lacks(a, '*') && IsOneLine(a)
    requires Lacks(m, '*')
    requires Lacks(b, '*') && IsOneLine(b)
    ensures Bold("**" + a + "**" + m + "**" + b + "**")
         == "<strong>" + a + "</strong>" + m + "<strong>" + b + "</strong>"
  {
    var last := "**" + b + "**";
    assert "**" + a + "**" + m + "**" + b + "**" == "**" + a + "**" + (m + last);
    PairFront(a, m + last, "**", "<strong>", "</strong>");
    PlainFront(m, last, "**", "<strong>", "</strong>");
    BoldSpan(b);
  }

  /** A lone closing delimiter at the end of the text is copied. */
  lemma StrayDelimiter(d: string, open: string, close: string)
    requires 0 < |d| <= 2 && d[|d| - 1] == d[0]
    ensures ReplacePairs(d, d, open, close) == d
  {
    assert d[|d|..] == "";
    assert FindClose("", d) == None;
    if |d| == 2 {
      assert d[1..] == [d[0]];
      assert !StartsWith(d[1..], d);
      assert ReplacePairs(d[1..][1..], d, open, close) == "";
      assert [d[0]] + [d[0]] == d;
    } else {
      assert d[1..] == "";
      assert [d[0]] == d;
    }
  }

  /**
   * `.` stops at a line break: `**a` and `b**` on two lines are not
   * paired, and the bold pass leaves the text as it is.
   */
  lemma BoldNotAcrossLines(a: string, b: string)
    requires Lacks(a, '*') && Lacks(b, '*')
    ensures Bold("**" + a + "\n" + b + "**") == "**" + a + "\n" + b + "**"
  {
    var d, o, c := "**", "<strong>", "</strong>";
    var mid := a + "\n" + b;
    var s := d + mid + d;
    assert s[..2] == d;
    assert s[2..] == a + "\n" + (b + d);
    NoCloseAcrossLine(a, d, b + d);
    var s1 := s[1..];
    assert s1 == "*" + mid + d;
    assert s1[1] == mid[0];
    FirstCharDiffers(s1[1..], d);
    assert !StartsWith(s1, d) by {
      assert s1[..2][1] == s1[1];
    }
    assert s1[1..] == mid + d;
    assert Lacks(mid, '*');
    PlainFront(mid, d, d, o, c);
    StrayDelimiter(d, o, c);
    assert ReplacePairs(s1, d, o, c) == "*" + mid + d;
    assert ReplacePairs(s, d, o, c) == "*" + ("*" + mid + d);
    assert "*" + ("*" + mid + d) == s;
    assert s == "**" + a + "\n" + b + "**";
  }

  /**
   * `.` stops at a line break: `*a` and `b*` on two lines are not paired,
   * and the italic pass leaves the text as it is.
   */
  lemma ItalicNotAcrossLines(a: string, b: string)
    requires Lacks(a, '*') && Lacks(b, '*')
    ensures Italic("*" + a + "\n" + b + "*") == "*" + a + "\n" + b + "*"
  {
    var d, o, c := "*", "<em>", "</em>";
    var mid := a + "\n" + b;
    var s := d + mid + d;
    assert s[..1] == d;
    assert s[1..] == a + "\n" + (b + d);
    NoCloseAcrossLine(a, d, b + d);
    assert s[1..] == mid + d;
    assert Lacks(mid, '*');
    PlainFront(mid, d, d, o, c);
    StrayDelimiter(d, o, c);
    assert ReplacePairs(s, d, o, c) == "*" + (mid + d);
    assert "*" + (mid + d) == s;
    assert s == "*" + a + "\n" + b + "*";
  }

  /** A line that is not a list item, or text in the middle of a line, passes the list pass unchanged. */
  lemma {:induction false} ListPassPlain(s: string, atLineStart: bool)
    requires IsOneLine(s)
    requires atLineStart ==> ListItem(s).None?
    ensures ListPass(s, atLineStart) == s
    decreases |s|
  {
    if |s| > 0 {
      assert IsOneLine(s[1..]);
      ListPassPlain(s[1..], false);
      assert [s[0]] + s[1..] == s;
    }
  }

  /**
   * A line that does not start with a digit is copied, and the line after
   * it starts afresh: the pass then continues at a line start.
   */
  lemma {:induction false} LineFront(p: string, rest: string, atLineStart: bool)
    requires IsOneLine(p)
    requires atLineStart && |p| > 0 ==> !IsDigit(p[0])
    ensures ListPass(p + "\n" + rest, atLineStart) == p + "\n" + ListPass(rest, true)
    decreases |p|
  {
    var s := p + "\n" + rest;
    if |p| == 0 {
      assert s[0] == '\n';
      assert s[1..] == rest;
    } else {
      assert s[0] == p[0];
      assert s[1..] == p[1..] + "\n" + rest;
      LineFront(p[1..], rest, false);
      assert [p[0]] + (p[1..] + "\n" + ListPass(rest, true)) == p + "\n" + ListPass(rest, true);
    }
  }

  /**
   * A line `digits.` + white space + `x`, where `x` does not start with
   * white space, becomes one list item holding `x`. The white space may
   * hold line breaks: `\s+` runs on over them to the next line.
   */
  lemma ListLine(n: string, w: string, x: string)
    requires |n| > 0 && forall j :: 0 <= j < |n| ==> IsDigit(n[j])
    requires |w| > 0 && IsBlank(w)
    requires |x| > 0 && IsOneLine(x) && !IsWhitespace(x[0])
    ensures ListPass(n + "." + w + x, true) == ListOpen + x + ListClose
  {
    var s := n + "." + w + x;
    var a, b := |n|, |n| + 1 + |w|;
    ListLineParts(n, w, x);
    SpanExact(s, 0, a, IsDigit);
    SpanExact(s, a + 1, |w|, IsWhitespace);
    SpanExact(s, b, |x|, NotLineTerminator);
    ListItemIs(s, a, b, |s|);
    ListPassItem(s, Item(a, b, |s|));
    assert s[b..|s|] == x;
    assert s[|s|..] == "";
  }

  /** `ListItem` from the lengths of the runs it scans, when the white space stops before the end. */
  lemma ListItemIs(s: string, a: nat, b: nat, e: nat)
    requires 0 < a < |s| && s[a] == '.' && a + 1 < b < |s|
    requires Span(s, 0, IsDigit) == a
    requires Span(s, a + 1, IsWhitespace) == b - a - 1
    requires Span(s, b, NotLineTerminator) == e - b
    ensures ListItem(s) == Some(Item(a, b, e))
  {
  }

  /** The list pass at a line start where `ListItem` finds a match. */
  lemma ListPassItem(s: string, it: Item)
    requires ListItem(s) == Some(it)
    ensures ListPass(s, true) == ListOpen + s[it.content..it.end] + ListClose + ListPass(s[it.end..], false)
  {
  }

  /** Where the digits, the dot, the white space and the text of a numbered line sit. */
  lemma ListLineParts(n: string, w: string, x: string)
    requires |n| > 0 && forall j :: 0 <= j < |n| ==> IsDigit(n[j])
    requires |w| > 0 && IsBlank(w)
    requires |x| > 0 && IsOneLine(x) && !IsWhitespace(x[0])
    ensures var s := n + "." + w + x; var b := |n| + 1 + |w|;
      && (forall j :: 0 <= j < |n| ==> IsDigit(s[j]))
      && s[|n|] == '.' && !IsDigit('.')
      && (forall j :: |n| + 1 <= j < b ==> IsWhitespace(s[j]))
      && b < |s| && !IsWhitespace(s[b])
      && (forall j :: b <= j < |s| ==> NotLineTerminator(s[j]))
  {
    var s := n + "." + w + x;
    var b := |n| + 1 + |w|;
    assert forall j :: 0 <= j < |n| ==> s[j] == n[j];
    assert forall j :: |n| + 1 <= j < b ==> s[j] == w[j - |n| - 1];
    assert forall j :: b <= j < |s| ==> s[j] == x[j - b];
  }

  /** A run of exactly `k` characters satisfying `p`, ended by the end of `s` or a character that fails `p`, has span `k`. */
  lemma {:induction false} SpanExact(s: string, i: nat, k: nat, p: char -> bool)
    requires i + k <= |s|
    requires forall j :: i <= j < i + k ==> p(s[j])
    requires i + k == |s| || !p(s[i + k])
    ensures Span(s, i, p) == k
    decreases k
  {
    if k > 0 {
      SpanExact(s, i + 1, k - 1, p);
    }
  }

  /** A numbered line whose number and text are one line break apart becomes one list item, the number's line with it. */
  lemma ListAcrossLineBreak()
    ensures ListPass("1.\nfoo", true) == ListOpen + "foo" + ListClose
  {
    ListLine("1", "\n", "foo");
    assert "1" + "." + "\n" + "foo" == "1.\nfoo";
  }

  /** One line without `*` that is not a list item renders as itself. */
  lemma RenderPlain(s: string)
    requires Lacks(s, '*') && IsOneLine(s) && ListItem(s).None?
    ensures Render(s) == s
  {
    PairsPlain(s, "**", "<strong>", "</strong>");
    PairsPlain(s, "*", "<em>", "</em>");
    ListPassPlain(s, true);
  }

  /** `**x**` renders as `<strong>x</strong>`, with no `em` element left behind. */
  lemma RenderBold(x: string)
    requires Lacks(x, '*') && IsOneLine(x)
    ensures Render("**" + x + "**") == "<strong>" + x + "</strong>"
  {
    BoldSpan(x);
    var t := "<strong>" + x + "</strong>";
    assert forall j :: 8 <= j < 8 + |x| ==> t[j] == x[j - 8];
    assert forall j :: 0 <= j < |t| ==> t[j] != '*' && !IsLineTerminator(t[j]);
    PairsPlain(t, "*", "<em>", "</em>");
    assert ListItem(t).None?;
    ListPassPlain(t, true);
  }

  /** A numbered line `digits. x` renders as one list item holding `x`. */
  lemma RenderListItem(n: string, x: string)
    requires |n| > 0 && forall j :: 0 <= j < |n| ==> IsDigit(n[j])
    requires |x| > 0 && IsOneLine(x) && Lacks(x, '*') && !IsWhitespace(x[0])
    ensures Render(n + ". " + x) == ListOpen + x + ListClose
  {
    var s := n + ". " + x;
    assert s == n + "." + " " + x;
    assert Lacks(n, '*');
    LacksJoin(n, ". ", '*');
    LacksJoin(n + ". ", x, '*');
    StarFree(s);
    ListLine(n, " ", x);
    ListTagsOneLine();
    assert Lacks(x, '\n');
    LacksJoin(ListOpen, x, '\n');
    LacksJoin(ListOpen + x, ListClose, '\n');
  }

  /** The list tags hold no line feed. */
  lemma ListTagsOneLine()
    ensures Lacks(ListOpen, '\n') && Lacks(ListClose, '\n')
  {
  }

  /** Text without `*` goes through the two emphasis passes unchanged. */
  lemma StarFree(s: string)
    requires Lacks(s, '*')
    ensures Render(s) == Newlines(ListPass(s, true))
  {
    PairsPlain(s, "**", "<strong>", "</strong>");
    PairsPlain(s, "*", "<em>", "</em>");
  }

  /** A concatenation lacks a character exactly when both parts do. */
  lemma LacksJoin(u: string, v: string, c: char)
    ensures Lacks(u + v, c) <==> Lacks(u, c) && Lacks(v, c)
  {
    if Lacks(u + v, c) {
      assert forall j :: 0 <= j < |u| ==> u[j] == (u + v)[j];
      assert forall j :: 0 <= j < |v| ==> v[j] == (u + v)[|u| + j];
    }
  }
}
