/**
 * The text helpers of the task manager (src/utils/taskManager.ts, copied
 * verbatim into src/entrypoints/background.ts): spintax expansion, the
 * display name of a profile link, and the bounded random delay.
 *
 * `Math.random()` is replaced by injected draws. A `Draw` d stands for the
 * double d / 2^53 in [0, 1), and `Math.floor(Math.random() * n)` is modelled
 * by the integer `(d * n) / 2^53` (Dafny's `/` rounds down for a positive
 * divisor). The rounding of the double product is not modelled.
 */
module TaskManager {
  import opened Wrappers
  import opened Strings
  import opened Types

  const RandomScale: nat := 0x20_0000_0000_0000

  /** One value of `Math.random()`, as a multiple of 2^-53. */
  type Draw = d: nat | d < RandomScale

  /** `Math.floor(Math.random() * n)`. */
  function Scaled(d: Draw, n: int): int {
    (d * n) / RandomScale
  }

  /** For a positive count the scaled draw is an index below it. */
  lemma {:induction false} ScaledBounds(d: Draw, n: int)
    requires n > 0
    ensures 0 <= Scaled(d, n) < n
  {
    ProductBelow(d, RandomScale, n);
  }

  /** Every index below `n` is chosen by some draw, so no option is ever left
      out (`n` options fit in 53 bits). */
  lemma {:induction false} ScaledOnto(n: int, i: int) returns (d: Draw)
    requires 0 < n <= RandomScale && 0 <= i < n
    ensures Scaled(d, n) == i
  {
    var w := OntoWitness(n, i, RandomScale);
    d := w;
  }

  lemma {:induction false} ProductBelow(d: int, s: int, n: int)
    requires 0 <= d < s && n > 0
    ensures 0 <= d * n < s * n
  {
  }

  lemma {:induction false} ProductLe(a: int, b: int, n: int)
    requires a <= b && n > 0
    ensures a * n <= b * n
  {
  }

  lemma {:induction false} DivBounds(m: int, n: int)
    requires m >= 0 && n > 0
    ensures m - n < (m / n) * n <= m && m / n >= 0
  {
  }

  /** The least `d` with `d * n >= i * s`, and it stays below `s`. */
  lemma {:induction false} OntoWitness(n: int, i: int, s: int) returns (d: int)
    requires 0 < n <= s && 0 <= i < n
    ensures 0 <= d < s && i * s <= d * n < i * s + s
  {
    var low := i * s;
    var m := low + n - 1;
    d := m / n;
    DivBounds(m, n);
    var p := d * n;
    assert low <= p < low + s;
    ProductLe(i, n - 1, s);
    assert (n - 1) * s == n * s - s;
    assert p < s * n;
    if d >= s {
      ProductLe(s, d, n);
    }
  }

  /** `options[Math.floor(Math.random() * options.length)]` for a non-empty list. */
  function Pick(d: Draw, n: nat): (i: nat)
    requires n > 0
    ensures i < n
  {
    ScaledBounds(d, n);
    Scaled(d, n)
  }

  // ---------------------------------------------------------------------
  // Spintax: `text.replace(/\{([^{}]+)\}/g, group => pick one of group.split('|'))`

  predicate IsBrace(c: char) {
    c == '{' || c == '}'
  }

  /** The pattern `\{([^{}]+)\}` matches at the start of `s`: an opening brace,
      one or more characters that are not braces, and a closing brace. */
  predicate GroupAt(s: string) {
    && |s| > 0 && s[0] == '{'
    && var k := RunEnd(s, 1, IsBrace); 1 < k < |s| && s[k] == '}'
  }

  /** The group's replacement: the chosen `|`-separated option. Empty options
      are legal choices. */
  function ChooseOption(group: string, d: Draw): (r: string)
    ensures r in SplitOn(group, '|')
  {
    var options := SplitOn(group, '|');
    options[Pick(d, |options|)]
  }

  /** The regular-expression scan: at each offset either a group matches, is
      replaced, and scanning resumes after it (replaced text is never scanned
      again), or one character is kept and the scan moves on by one. The
      `g`-th group replaced uses draw `rnd(g)`. */
  function Expand(s: string, rnd: nat -> Draw, g: nat): string
    decreases |s|
  {
    if s == [] then []
    else if GroupAt(s) then
      var k := RunEnd(s, 1, IsBrace);
      ChooseOption(s[1..k], rnd(g)) + Expand(s[k + 1..], rnd, g + 1)
    else
      [s[0]] + Expand(s[1..], rnd, g)
  }

  /** `processSpintax`: the first group uses the first draw. */
  function ProcessSpintax(text: string, rnd: nat -> Draw): string {
    Expand(text, rnd, 0)
  }

  /** Offsets `i < j` of `s` hold a brace-free, non-empty group `{...}`. */
  predicate IsGroupSpan(s: string, i: nat, j: nat)
    requires i < j < |s|
  {
    && s[i] == '{' && s[j] == '}' && i + 1 < j
    && forall m :: i < m < j ==> !IsBrace(s[m])
  }

  /** The template holds at least one group the pattern can match. */
  predicate ContainsGroup(s: string) {
    exists i: nat, j: nat :: i < j < |s| && IsGroupSpan(s, i, j)
  }

  /** A group at offset `0` is exactly a group match at the start. */
  lemma {:induction false} GroupAtSpan(s: string, j: nat)
    requires 0 < j < |s| && IsGroupSpan(s, 0, j)
    ensures GroupAt(s) && RunEnd(s, 1, IsBrace) == j
  {
    RunEndUnique(s, 1, IsBrace, j);
  }

  /** A group that does not start at offset `0` is a group of the tail. */
  lemma {:induction false} GroupSpanShift(s: string, i: nat, j: nat)
    requires 0 < i < j < |s| && IsGroupSpan(s, i, j)
    ensures IsGroupSpan(s[1..], i - 1, j - 1)
  {
    var t := s[1..];
    assert forall m :: i - 1 < m < j - 1 ==> t[m] == s[m + 1];
  }

  /** A group of the tail is a group of the whole template. */
  lemma {:induction false} GroupSpanUnshift(s: string, i: nat, j: nat)
    requires |s| > 0 && i < j < |s| - 1 && IsGroupSpan(s[1..], i, j)
    ensures IsGroupSpan(s, i + 1, j + 1)
  {
    assert forall m :: i + 1 < m < j + 1 ==> s[m] == s[1..][m - 1];
  }

  /** Expansion never lengthens the template, and it strictly shortens every
      template that holds a group (each group loses at least its two braces). */
  lemma {:induction false} ExpandShortens(s: string, rnd: nat -> Draw, g: nat)
    ensures |Expand(s, rnd, g)| <= |s|
    ensures ContainsGroup(s) ==> |Expand(s, rnd, g)| < |s|
    decreases |s|
  {
    if s == [] {
    } else if GroupAt(s) {
      var k := RunEnd(s, 1, IsBrace);
      ExpandShortens(s[k + 1..], rnd, g + 1);
      var option := ChooseOption(s[1..k], rnd(g));
      assert |option| <= k - 1;
    } else {
      ExpandShortens(s[1..], rnd, g);
      if ContainsGroup(s) {
        var i: nat, j: nat :| i < j < |s| && IsGroupSpan(s, i, j);
        if i == 0 {
          GroupAtSpan(s, j);
          assert false;
        }
        GroupSpanShift(s, i, j);
        assert ContainsGroup(s[1..]);
      }
    }
  }

  /** A template without a group is returned unchanged. */
  lemma {:induction false} ExpandNoGroup(s: string, rnd: nat -> Draw, g: nat)
    requires !ContainsGroup(s)
    ensures Expand(s, rnd, g) == s
    decreases |s|
  {
    if s != [] {
      if GroupAt(s) {
        var k := RunEnd(s, 1, IsBrace);
        assert IsGroupSpan(s, 0, k);
        assert false;
      }
      if ContainsGroup(s[1..]) {
        var i: nat, j: nat :| i < j < |s[1..]| && IsGroupSpan(s[1..], i, j);
        GroupSpanUnshift(s, i, j);
        assert false;
      }
      ExpandNoGroup(s[1..], rnd, g);
    }
  }

  /** `processSpintax` returns its input exactly when the input holds no
      non-empty, brace-free `{...}` group: "", "{}" and "{abc" come back as
      they are; anything with a group changes. */
  lemma {:induction false} SpintaxUnchangedIff(text: string, rnd: nat -> Draw)
    ensures ProcessSpintax(text, rnd) == text <==> !ContainsGroup(text)
  {
    ExpandShortens(text, rnd, 0);
    if !ContainsGroup(text) {
      ExpandNoGroup(text, rnd, 0);
    }
  }

  /** The three degenerate templates hold no group. */
  lemma {:induction false} DegenerateTemplates(rnd: nat -> Draw)
    ensures ProcessSpintax("", rnd) == ""
    ensures ProcessSpintax("{}", rnd) == "{}"
    ensures ProcessSpintax("{abc", rnd) == "{abc"
  {
    assert !ContainsGroup("{abc");
    SpintaxUnchangedIff("{abc", rnd);
    assert !ContainsGroup("{}");
    SpintaxUnchangedIff("{}", rnd);
  }

  /** A well-formed group `{body}` at the front expands to one of the options
      of `body`, chosen by the current draw; the rest of the template is
      scanned from just after the closing brace, with the next draw. */
  lemma {:induction false} GroupThenRest(body: string, rest: string, rnd: nat -> Draw, g: nat)
    requires body != [] && forall m :: 0 <= m < |body| ==> !IsBrace(body[m])
    ensures Expand(['{'] + body + ['}'] + rest, rnd, g)
         == ChooseOption(body, rnd(g)) + Expand(rest, rnd, g + 1)
  {
    var s := ['{'] + body + ['}'] + rest;
    var k := |body| + 1;
    assert IsGroupSpan(s, 0, k);
    GroupAtSpan(s, k);
    assert s[1..k] == body;
    assert s[k + 1..] == rest;
  }

  /** A group alone expands to the option its draw picks. */
  lemma {:induction false} LoneGroup(body: string, rnd: nat -> Draw, g: nat)
    requires body != [] && forall m :: 0 <= m < |body| ==> !IsBrace(body[m])
    ensures Expand(['{'] + body + ['}'], rnd, g) == ChooseOption(body, rnd(g))
  {
    GroupThenRest(body, [], rnd, g);
    assert ['{'] + body + ['}'] + [] == ['{'] + body + ['}'];
  }

  /** A template that is one group yields one of its options and nothing else;
      the option is the one at index `floor(r * n)` of the `n` options. */
  lemma {:induction false} SingleGroupYieldsOption(body: string, rnd: nat -> Draw)
    requires body != [] && forall m :: 0 <= m < |body| ==> !IsBrace(body[m])
    ensures var options := SplitOn(body, '|');
      && ProcessSpintax(['{'] + body + ['}'], rnd) == options[Pick(rnd(0), |options|)]
      && ProcessSpintax(['{'] + body + ['}'], rnd) in options
  {
    LoneGroup(body, rnd, 0);
  }

  /** Every option of a single group is the outcome of some draw (for at
      most 2^53 options). */
  lemma {:induction false} EveryOptionReachable(body: string, i: nat) returns (rnd: nat -> Draw)
    requires body != [] && forall m :: 0 <= m < |body| ==> !IsBrace(body[m])
    requires i < |SplitOn(body, '|')| <= RandomScale
    ensures ProcessSpintax(['{'] + body + ['}'], rnd) == SplitOn(body, '|')[i]
  {
    var d := ScaledOnto(|SplitOn(body, '|')|, i);
    rnd := (g: nat) => d;
    SingleGroupYieldsOption(body, rnd);
  }

  /** `{a|}` can expand to the empty string: the empty option is a choice. */
  lemma {:induction false} EmptyOptionChosen()
    ensures ProcessSpintax("{a|}", (g: nat) => (RandomScale - 1) as Draw) == ""
  {
    var rnd := (g: nat) => (RandomScale - 1) as Draw;
    assert SplitOn("", '|') == [[]];
    assert SplitOn("|", '|') == [[], []] by { assert "|"[1..] == ""; }
    var options := SplitOn("a|", '|');
    assert |options| == 2 && options[1] == "" by {
      assert "a|"[1..] == "|";
      assert options == [['a'] + []] + [[]];
    }
    SingleGroupYieldsOption("a|", rnd);
    assert ['{'] + "a|" + ['}'] == "{a|}";
    ScaledBounds(rnd(0), 2);
    assert Scaled(rnd(0), 2) == 1;
  }

  /** Two adjacent groups are expanded independently, each with its own draw:
      the first closing brace ends the first group. */
  lemma {:induction false} AdjacentGroupsIndependent(b1: string, b2: string, rnd: nat -> Draw)
    requires b1 != [] && forall m :: 0 <= m < |b1| ==> !IsBrace(b1[m])
    requires b2 != [] && forall m :: 0 <= m < |b2| ==> !IsBrace(b2[m])
    ensures ProcessSpintax(['{'] + b1 + ['}'] + (['{'] + b2 + ['}']), rnd)
         == ChooseOption(b1, rnd(0)) + ChooseOption(b2, rnd(1))
  {
    GroupThenRest(b1, ['{'] + b2 + ['}'], rnd, 0);
    LoneGroup(b2, rnd, 1);
  }

  /** A character that does not open a group is copied and the scan moves on. */
  lemma {:induction false} KeepChar(c: char, rest: string, rnd: nat -> Draw, g: nat)
    requires !GroupAt([c] + rest)
    ensures Expand([c] + rest, rnd, g) == [c] + Expand(rest, rnd, g)
  {
    assert ([c] + rest)[1..] == rest;
  }

  /** Brace-free text is copied as it is, and consumes no draw. */
  lemma {:induction false} BraceFreeText(text: string, rest: string, rnd: nat -> Draw, g: nat)
    requires forall m :: 0 <= m < |text| ==> !IsBrace(text[m])
    ensures Expand(text + rest, rnd, g) == text + Expand(rest, rnd, g)
    decreases |text|
  {
    if text != [] {
      var tail := text[1..];
      assert text + rest == [text[0]] + (tail + rest);
      KeepChar(text[0], tail + rest, rnd, g);
      BraceFreeText(tail, rest, rnd, g);
      calc {
        Expand(text + rest, rnd, g);
        [text[0]] + Expand(tail + rest, rnd, g);
        [text[0]] + (tail + Expand(rest, rnd, g));
        { assert text == [text[0]] + tail; }
        text + Expand(rest, rnd, g);
      }
    } else {
      assert text + rest == rest;
    }
  }

  /** In `{a{b|c}}`-shaped text only the inner, brace-free group is replaced:
      the outer pair is not a group (its content holds a brace) and its braces
      are kept as text. */
  lemma {:induction false} NestedKeepsOuterBraces(outer: string, body: string, rnd: nat -> Draw)
    requires outer != [] && forall m :: 0 <= m < |outer| ==> !IsBrace(outer[m])
    requires body != [] && forall m :: 0 <= m < |body| ==> !IsBrace(body[m])
    ensures ProcessSpintax(['{'] + (outer + (['{'] + body + ['}'] + ['}'])), rnd)
         == ['{'] + outer + ChooseOption(body, rnd(0)) + ['}']
  {
    var inner := ['{'] + body + ['}'] + ['}'];
    var c := ChooseOption(body, rnd(0));
    calc {
      ProcessSpintax(['{'] + (outer + inner), rnd);
      { OpenBeforeGroup(outer, inner); KeepChar('{', outer + inner, rnd, 0); }
      ['{'] + Expand(outer + inner, rnd, 0);
      { BraceFreeText(outer, inner, rnd, 0); }
      ['{'] + (outer + Expand(inner, rnd, 0));
      { GroupThenClose(body, rnd, 0); }
      ['{'] + (outer + (c + ['}']));
      ['{'] + outer + c + ['}'];
    }
  }

  /** An opening brace followed by brace-free text and then another opening
      brace does not start a group. */
  lemma {:induction false} OpenBeforeGroup(outer: string, rest: string)
    requires outer != [] && forall m :: 0 <= m < |outer| ==> !IsBrace(outer[m])
    requires rest != [] && rest[0] == '{'
    ensures !GroupAt(['{'] + (outer + rest))
  {
    var s := ['{'] + (outer + rest);
    assert s[|outer| + 1] == '{';
    RunEndUnique(s, 1, IsBrace, |outer| + 1);
  }

  /** A group followed by a stray closing brace: the group is replaced and
      the brace is kept. */
  lemma {:induction false} GroupThenClose(body: string, rnd: nat -> Draw, g: nat)
    requires body != [] && forall m :: 0 <= m < |body| ==> !IsBrace(body[m])
    ensures Expand(['{'] + body + ['}'] + ['}'], rnd, g) == ChooseOption(body, rnd(g)) + ['}']
  {
    GroupThenRest(body, ['}'], rnd, g);
    KeepChar('}', [], rnd, g + 1);
    assert ['}'] + [] == ['}'];
  }

  // ---------------------------------------------------------------------
  // extractUsername: `url.match(/instagram\.com\/([^/?]+)/)`

  predicate IsPathStop(c: char) {
    c == '/' || c == '?'
  }

  /** The pattern matches at offset `p`: the host fragment, then at least one
      character other than `/` and `?`. */
  predicate UserAt(s: string, p: nat) {
    p + |ProfileHost| < |s| && s[p..p + |ProfileHost|] == ProfileHost && !IsPathStop(s[p + |ProfileHost|])
  }

  /** The capture of a match at `p`: the longest run of non-stop characters. */
  function CaptureAt(s: string, p: nat): string
    requires UserAt(s, p)
  {
    s[p + |ProfileHost|..RunEnd(s, p + |ProfileHost|, IsPathStop)]
  }

  /** The offset of the leftmost match from `p` on, as a regular-expression
      search tries every start offset in turn. */
  function FindMatch(s: string, p: nat): (r: Option<nat>)
    requires p <= |s|
    ensures r.None? <==> forall q :: p <= q < |s| ==> !UserAt(s, q)
    ensures r.Some? ==> p <= r.value < |s| && UserAt(s, r.value)
                        && forall q :: p <= q < r.value ==> !UserAt(s, q)
    decreases |s| - p
  {
    if p == |s| then None
    else if UserAt(s, p) then Some(p)
    else FindMatch(s, p + 1)
  }

  /** `u` is captured right after the host fragment found at offset `q`:
      non-empty, free of `/` and `?`, and followed by one of them or the end. */
  predicate CapturedAt(url: string, q: nat, u: string) {
    var start := q + |ProfileHost|;
    && start + |u| <= |url| && url[q..start] == ProfileHost && url[start..start + |u|] == u
    && |u| > 0 && (forall m :: 0 <= m < |u| ==> !IsPathStop(u[m]))
    && (start + |u| == |url| || IsPathStop(url[start + |u|]))
  }

  /** `extractUsername`: `"@" + name` for the leftmost profile path segment,
      the link itself when there is none. */
  function ExtractUsername(url: string): (r: string)
    ensures (forall q :: 0 <= q < |url| ==> !UserAt(url, q)) ==> r == url
    ensures (exists q :: 0 <= q < |url| && UserAt(url, q)) ==>
      exists q, u :: 0 <= q < |url| && CapturedAt(url, q, u) && r == "@" + u
        && (forall q' :: 0 <= q' < q ==> !UserAt(url, q'))
  {
    match FindMatch(url, 0)
    case None => url
    case Some(q) =>
      CaptureMeaning(url, q);
      "@" + CaptureAt(url, q)
  }

  /** The capture at a match is the segment `CapturedAt` describes. */
  lemma {:induction false} CaptureMeaning(url: string, q: nat)
    requires UserAt(url, q)
    ensures CapturedAt(url, q, CaptureAt(url, q))
  {
    var start := q + |ProfileHost|;
    var u := CaptureAt(url, q);
    assert forall m :: 0 <= m < |u| ==> u[m] == url[start + m];
  }

  /** A profile link `<lead>instagram.com/<name><tail>` gives `@<name>` when
      nothing before the host can start a match (no `i` in the lead, as in
      `https://www.`) and the tail is empty or starts a query or a subpath. */
  lemma {:induction false} ExtractFromProfileLink(lead: string, name: string, tail: string)
    requires forall m :: 0 <= m < |lead| ==> lead[m] != 'i'
    requires name != [] && forall m :: 0 <= m < |name| ==> !IsPathStop(name[m])
    requires tail == [] || IsPathStop(tail[0])
    ensures ExtractUsername(lead + ProfileHost + name + tail) == "@" + name
  {
    var url := lead + ProfileHost + name + tail;
    ProfileLinkCapture(lead, name, tail);
    LeadHasNoMatch(lead, ProfileHost + name + tail);
    assert url == lead + (ProfileHost + name + tail);
    FindMatchFirst(url, 0, |lead|);
  }

  /** In a profile link the pattern matches right after the lead, and the
      capture there is the name. */
  lemma {:induction false} ProfileLinkCapture(lead: string, name: string, tail: string)
    requires name != [] && forall m :: 0 <= m < |name| ==> !IsPathStop(name[m])
    requires tail == [] || IsPathStop(tail[0])
    ensures UserAt(lead + ProfileHost + name + tail, |lead|)
    ensures CaptureAt(lead + ProfileHost + name + tail, |lead|) == name
  {
    var url := lead + ProfileHost + name + tail;
    var start := |lead| + |ProfileHost|;
    var end := start + |name|;
    assert url[|lead|..start] == ProfileHost;
    assert url[start] == name[0];
    assert forall m :: start <= m < end ==> url[m] == name[m - start];
    assert end == |url| || url[end] == tail[0];
    RunEndUnique(url, start, IsPathStop, end);
    assert url[start..end] == name;
  }

  /** The pattern cannot match at an offset holding anything but `i`, so a
      lead without `i` holds no match. */
  lemma {:induction false} LeadHasNoMatch(lead: string, rest: string)
    requires forall m :: 0 <= m < |lead| ==> lead[m] != 'i'
    ensures forall q :: 0 <= q < |lead| ==> !UserAt(lead + rest, q)
  {
    var url := lead + rest;
    forall q | 0 <= q < |lead| ensures !UserAt(url, q) {
      assert url[q] == lead[q];
      if q + |ProfileHost| < |url| {
        assert url[q..q + |ProfileHost|][0] == url[q];
      }
    }
  }

  /** The search stops at the first match. */
  lemma {:induction false} FindMatchFirst(s: string, p: nat, q: nat)
    requires p <= q < |s| && UserAt(s, q)
    requires forall m :: p <= m < q ==> !UserAt(s, m)
    ensures FindMatch(s, p) == Some(q)
    decreases q - p
  {
    if p < q {
      FindMatchFirst(s, p + 1, q);
    }
  }

  /** A link without the host fragment is returned as it is. */
  lemma {:induction false} ExtractUsernameNoHost(url: string)
    requires !Contains(url, ProfileHost)
    ensures ExtractUsername(url) == url
  {
    forall q | 0 <= q < |url| ensures !UserAt(url, q) {
      if UserAt(url, q) {
        ContainsAt(url, ProfileHost, q);
      }
    }
  }

  // ---------------------------------------------------------------------
  // randomDelay: `Math.floor(Math.random() * (max - min + 1)) + min`

  function RandomDelay(min: int, max: int, d: Draw): (r: int)
    ensures min <= max ==> min <= r <= max
    ensures min == max ==> r == min
  {
    assert min <= max ==> 0 <= Scaled(d, max - min + 1) <= max - min by {
      if min <= max { ScaledBounds(d, max - min + 1); }
    }
    Scaled(d, max - min + 1) + min
  }

  /** Every delay in the range is produced by some draw. */
  lemma {:induction false} RandomDelayOnto(min: int, max: int, v: int) returns (d: Draw)
    requires min <= v <= max && max - min < RandomScale
    ensures RandomDelay(min, max, d) == v
  {
    d := ScaledOnto(max - min + 1, v - min);
  }
}
