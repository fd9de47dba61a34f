/** Pulling the first balanced JSON object out of a model's reply, and its inverse: the texts
    of JSON objects as RFC 8259 writes them. */
module JsonScan {
  import opened Wrappers
  import opened Text

  // --- The scanner -------------------------------------------------------------------------

  /** Where a scan stands: inside the object at some brace depth, possibly inside a string and
      right after a backslash; or past the brace that closed it. */
  datatype Scan = Open(depth: int, inString: bool, escaped: bool) | Closed

  function Step(s: Scan, c: char): Scan {
    match s
    case Closed => Closed
    case Open(depth, inString, escaped) =>
      if inString then
        if escaped then Open(depth, true, false)
        else if c == '\\' then Open(depth, true, true)
        else if c == '"' then Open(depth, false, false)
        else s
      else if c == '"' then Open(depth, true, false)
      else if c == '{' then Open(depth + 1, false, false)
      else if c == '}' then (if depth == 1 then Closed else Open(depth - 1, false, false))
      else s
  }

  function Run(s: Scan, text: string): Scan {
    if text == "" then s else Step(Run(s, text[..|text| - 1]), text[|text| - 1])
  }

  const START := Open(0, false, false)

  function FirstIndex(text: string, c: char, from: nat): (i: int)
    requires from <= |text|
    ensures i == -1 || (from <= i < |text| && text[i] == c)
    ensures forall k | from <= k < (if i == -1 then |text| else i) :: text[k] != c
    decreases |text| - from
  {
    if from == |text| then -1 else if text[from] == c then from else FirstIndex(text, c, from + 1)
  }

  predicate StartsWithFence(s: string) { |s| >= 3 && s[..3] == "```" }

  predicate EndsWithFence(s: string) { |s| >= 3 && s[|s| - 3..] == "```" }

  /** Drops a closing fence. */
  function CutFence(inner: string): string {
    var trimmed := RStrip(inner);
    if EndsWithFence(trimmed) then trimmed[..|trimmed| - 3] else inner
  }

  /** What follows the fence line, without the closing fence. */
  function FenceBody(stripped: string): string {
    var newline := FirstIndex(stripped, '\n', 0);
    Strip(CutFence(if newline == -1 then stripped else stripped[newline + 1..]))
  }

  /** The text the scan looks at: stripped, and without a Markdown fence around it. */
  function Unfenced(text: string): string {
    var stripped := Strip(text);
    if StartsWithFence(stripped) then FenceBody(stripped) else stripped
  }

  predicate NeverCloses(text: string) {
    forall n | 0 <= n <= |text| :: Run(START, text[..n]) != Closed
  }

  /** Scanning `r` from its opening brace closes at its end and not before. */
  predicate Balanced(r: string) {
    Run(START, r) == Closed && r != "" && NeverCloses(r[..|r| - 1])
  }

  /** `r` is the balanced text that starts at the first brace of `s`. */
  predicate IsFirstObject(s: string, r: string) {
    var start := FirstIndex(s, '{', 0);
    start >= 0 && start + |r| <= |s| && r == s[start..start + |r|] && Balanced(r)
  }

  predicate HasNoObject(s: string) {
    var start := FirstIndex(s, '{', 0);
    start == -1 || NeverCloses(s[start..])
  }

  lemma NeverClosesSnoc(text: string, c: char)
    ensures NeverCloses(text + [c]) <==> NeverCloses(text) && Run(START, text + [c]) != Closed
  {
    assert forall n | 0 <= n <= |text| :: (text + [c])[..n] == text[..n];
    assert (text + [c])[..|text| + 1] == text + [c];
    if NeverCloses(text + [c]) {
      forall n | 0 <= n <= |text| ensures Run(START, text[..n]) != Closed {
        assert (text + [c])[..n] == text[..n];
      }
    }
  }

  method ExtractJson(text: string) returns (r: Option<string>)
    ensures match r
            case Some(o) => IsFirstObject(Unfenced(text), o)
            case None => HasNoObject(Unfenced(text))
  {
    hide Run, NeverCloses, FirstIndex, Strip, RStrip, IsFirstObject, HasNoObject, Balanced;
    var stripped := Strip(text);
    if StartsWithFence(stripped) {
      var firstNewline := FirstIndex(stripped, '\n', 0);
      if firstNewline != -1 {
        stripped := stripped[firstNewline + 1..];
      }
      if EndsWithFence(RStrip(stripped)) {
        stripped := RStrip(stripped)[..|RStrip(stripped)| - 3];
      }
      stripped := Strip(stripped);
    }
    assert stripped == Unfenced(text);
    r := Scanned(stripped);
  }

  /** The brace-matching loop. */
  method Scanned(stripped: string) returns (r: Option<string>)
    ensures match r
            case Some(o) => IsFirstObject(stripped, o)
            case None => HasNoObject(stripped)
  {
    hide Run, NeverCloses;
    var start := FirstIndex(stripped, '{', 0);
    if start == -1 {
      return None;
    }
    var depth, inString, escaped := 0, false, false;
    NothingCloses();
    assert stripped[start..start] == "";
    for i := start to |stripped|
      invariant Run(START, stripped[start..i]) == Open(depth, inString, escaped)
      invariant escaped ==> inString
      invariant NeverCloses(stripped[start..i])
    {
      var ch := stripped[i];
      ghost var before := stripped[start..i];
      RunSnoc(START, before, ch);
      NeverClosesSnoc(before, ch);
      assert stripped[start..i + 1] == before + [ch];
      if inString {
        if escaped {
          escaped := false;
        } else if ch == '\\' {
          escaped := true;
        } else if ch == '"' {
          inString := false;
        }
        continue;
      }
      if ch == '"' {
        inString := true;
      } else if ch == '{' {
        depth := depth + 1;
      } else if ch == '}' {
        depth := depth - 1;
        if depth == 0 {
          assert (before + [ch])[..|before|] == before;
          return Some(stripped[start..i + 1]);
        }
      }
    }
    assert stripped[start..|stripped|] == stripped[start..];
    return None;
  }

  lemma NothingCloses()
    ensures NeverCloses("") && Run(START, "") == START
  {
  }

  lemma RunNothing(s: Scan)
    ensures Run(s, "") == s
  {
  }

  lemma RunSnoc(s: Scan, text: string, c: char)
    ensures Run(s, text + [c]) == Step(Run(s, text), c)
  {
    assert (text + [c])[..|text|] == text;
  }

  lemma {:induction false} RunAppend(s: Scan, a: string, b: string)
    ensures Run(s, a + b) == Run(Run(s, a), b)
  {
    if b == "" {
      assert a + b == a;
    } else {
      RunAppend(s, a, b[..|b| - 1]);
      RunSnoc(s, a + b[..|b| - 1], b[|b| - 1]);
      assert a + b == a + b[..|b| - 1] + [b[|b| - 1]];
    }
  }

  lemma {:induction false} ClosedStays(text: string)
    ensures Run(Closed, text) == Closed
  {
    if text != "" {
      ClosedStays(text[..|text| - 1]);
    }
  }

  /** An object, once closed, is closed for every longer text: at most one prefix of a text is
      the first object. */
  lemma FirstObjectIsUnique(s: string, r: string, q: string)
    requires IsFirstObject(s, r) && IsFirstObject(s, q)
    ensures r == q
  {
    var start := FirstIndex(s, '{', 0);
    assert |r| <= |q| ==> q[..|r|] == r;
    assert |q| <= |r| ==> r[..|q|] == q;
    if |r| < |q| {
      ShorterNeverCloses(r, q);
    } else if |q| < |r| {
      ShorterNeverCloses(q, r);
    }
  }

  lemma ShorterNeverCloses(short: string, long: string)
    requires Balanced(long) && short < long
    ensures Run(START, short) != Closed
  {
    assert long[..|long| - 1][..|short|] == short;
  }

  // --- JSON texts (RFC 8259) ------------------------------------------------------------------

  /** One character of a string as it is written (section 7). */
  datatype StringElement =
    | Plain(c: char)
    | Escape(e: char)
    | Unicode(h1: char, h2: char, h3: char, h4: char)

  /** A JSON text with all the freedom the grammar gives: any insignificant white space, any
      choice of escapes (sections 2 to 7). Literals and numbers are atoms. */
  datatype Value =
    | Atom(text: string)
    | Str(elements: seq<StringElement>)
    | Arr(open: string, items: Items)
    | Obj(open: string, members: Members)

  datatype Items =
    | NoItems
    | Item(before: string, value: Value, after: string, rest: Items)

  datatype Members =
    | NoMembers
    | Member(before: string, key: seq<StringElement>, beforeColon: string, afterColon: string,
             value: Value, after: string, rest: Members)

  predicate IsJsonSpace(s: string) {
    forall c | c in s :: c == ' ' || c == '\t' || c == '\n' || c == '\r'
  }

  predicate IsHex(c: char) { '0' <= c <= '9' || 'a' <= c <= 'f' || 'A' <= c <= 'F' }

  predicate ElementOk(e: StringElement) {
    match e
    case Plain(c) => c != '"' && c != '\\' && c as int >= 0x20
    case Escape(x) => x in "\"\\/bfnrt"
    case Unicode(h1, h2, h3, h4) => IsHex(h1) && IsHex(h2) && IsHex(h3) && IsHex(h4)
  }

  predicate StringOk(elements: seq<StringElement>) {
    forall e | e in elements :: ElementOk(e)
  }

  /** A superset of the literal names and numbers of section 3 and 6. */
  predicate AtomOk(text: string) {
    text in {"true", "false", "null"} || (text != "" && forall c | c in text :: '0' <= c <= '9' || c in "+-.eE")
  }

  predicate ValueOk(v: Value) {
    match v
    case Atom(text) => AtomOk(text)
    case Str(elements) => StringOk(elements)
    case Arr(open, items) => IsJsonSpace(open) && ItemsOk(items)
    case Obj(open, members) => IsJsonSpace(open) && MembersOk(members)
  }

  predicate ItemsOk(items: Items) {
    match items
    case NoItems => true
    case Item(before, value, after, rest) =>
      IsJsonSpace(before) && ValueOk(value) && IsJsonSpace(after) && ItemsOk(rest)
  }

  predicate MembersOk(members: Members) {
    match members
    case NoMembers => true
    case Member(before, key, beforeColon, afterColon, value, after, rest) =>
      && IsJsonSpace(before) && StringOk(key) && IsJsonSpace(beforeColon) && IsJsonSpace(afterColon)
      && ValueOk(value) && IsJsonSpace(after) && MembersOk(rest)
  }

  function PrintElement(e: StringElement): string {
    match e
    case Plain(c) => [c]
    case Escape(x) => ['\\', x]
    case Unicode(h1, h2, h3, h4) => ['\\', 'u', h1, h2, h3, h4]
  }

  function PrintElements(elements: seq<StringElement>): string {
    if elements == [] then "" else PrintElements(elements[..|elements| - 1]) + PrintElement(elements[|elements| - 1])
  }

  function PrintString(elements: seq<StringElement>): string {
    "\"" + PrintElements(elements) + "\""
  }

  function Print(v: Value): string {
    match v
    case Atom(text) => text
    case Str(elements) => PrintString(elements)
    case Arr(open, items) => "[" + open + PrintItems(items) + "]"
    case Obj(open, members) => "{" + open + PrintMembers(members) + "}"
  }

  function Comma(more: bool): string { if more then "," else "" }

  function PrintItems(items: Items): string {
    match items
    case NoItems => ""
    case Item(before, value, after, rest) =>
      before + Print(value) + after + Comma(rest.Item?) + PrintItems(rest)
  }

  function PrintMembers(members: Members): string {
    match members
    case NoMembers => ""
    case Member(before, key, beforeColon, afterColon, value, after, rest) =>
      before + PrintString(key) + beforeColon + ":" + afterColon + Print(value) + after
      + Comma(rest.Member?) + PrintMembers(rest)
  }

  // --- Scanning what was printed ----------------------------------------------------------------

  /** Reading `text` outside a string leaves the depth as it is, at any depth of at least one. */
  ghost predicate Neutral(text: string) {
    forall d: int :: d >= 1 ==> Run(Open(d, false, false), text) == Open(d, false, false)
  }

  lemma NeutralAppend(a: string, b: string)
    requires Neutral(a) && Neutral(b)
    ensures Neutral(a + b)
  {
    hide Run;
    forall d: int | d >= 1 ensures Run(Open(d, false, false), a + b) == Open(d, false, false) {
      RunAppend(Open(d, false, false), a, b);
    }
  }

  lemma {:induction false} CalmText(text: string)
    requires forall c | c in text :: c != '"' && c != '{' && c != '}'
    ensures Neutral(text)
  {
    if text != "" {
      var init := text[..|text| - 1];
      assert text[|text| - 1] in text && forall c | c in init :: c in text;
      CalmText(init);
    }
  }

  /** Inside a string only a quote ends it, and a backslash makes any next character harmless, whether JSON
      allows it there or not. */
  lemma {:induction false} InsideAnyString(d: int, text: string, c: char)
    requires forall x | x in text :: x != '"' && x != '\\'
    ensures Run(Open(d, true, false), text) == Open(d, true, false)
    ensures Run(Open(d, true, false), text + ['\\', c]) == Open(d, true, false)
    ensures Run(Open(d, true, false), text + "\"") == Open(d, false, false)
  {
    hide Run;
    var s := Open(d, true, false);
    if text == "" {
      RunNothing(s);
    } else {
      var init := text[..|text| - 1];
      assert text[|text| - 1] in text && forall x | x in init :: x in text;
      InsideAnyString(d, init, c);
      RunSnoc(s, init, text[|text| - 1]);
      assert text == init + [text[|text| - 1]];
    }
    RunSnoc(s, text, '"');
    RunSnoc(s, text, '\\');
    RunSnoc(s, text + ['\\'], c);
    assert text + ['\\', c] == text + ['\\'] + [c];
  }

  lemma {:induction false} InsideString(d: int, elements: seq<StringElement>)
    requires StringOk(elements)
    ensures Run(Open(d, true, false), PrintElements(elements)) == Open(d, true, false)
  {
    if elements != [] {
      var init, last := elements[..|elements| - 1], elements[|elements| - 1];
      assert last in elements && forall e | e in init :: e in elements;
      InsideString(d, init);
      RunAppend(Open(d, true, false), PrintElements(init), PrintElement(last));
      InsideElement(d, last);
    }
  }

  lemma InsideElement(d: int, e: StringElement)
    requires ElementOk(e)
    ensures Run(Open(d, true, false), PrintElement(e)) == Open(d, true, false)
  {
    hide Run;
    var s := Open(d, true, false);
    RunNothing(s);
    match e
    case Plain(c) =>
      RunSnoc(s, "", c);
      assert "" + [c] == [c];
    case Escape(x) =>
      RunSnoc(s, "", '\\');
      RunSnoc(s, ['\\'], x);
      assert "" + ['\\'] == ['\\'] && ['\\'] + [x] == ['\\', x];
    case Unicode(h1, h2, h3, h4) =>
      RunSnoc(s, "", '\\');
      RunSnoc(s, ['\\'], 'u');
      RunSnoc(s, ['\\', 'u'], h1);
      RunSnoc(s, ['\\', 'u', h1], h2);
      RunSnoc(s, ['\\', 'u', h1, h2], h3);
      RunSnoc(s, ['\\', 'u', h1, h2, h3], h4);
      assert "" + ['\\'] == ['\\'] && ['\\'] + ['u'] == ['\\', 'u'];
      assert ['\\', 'u'] + [h1] == ['\\', 'u', h1] && ['\\', 'u', h1] + [h2] == ['\\', 'u', h1, h2];
      assert ['\\', 'u', h1, h2] + [h3] == ['\\', 'u', h1, h2, h3];
      assert ['\\', 'u', h1, h2, h3] + [h4] == ['\\', 'u', h1, h2, h3, h4];
  }

  /** A quoted string is neutral, whatever it contains. */
  lemma QuotedIsNeutral(elements: seq<StringElement>)
    requires StringOk(elements)
    ensures Neutral(PrintString(elements))
  {
    hide Run;
    forall d: int | d >= 1 ensures Run(Open(d, false, false), PrintString(elements)) == Open(d, false, false) {
      var s := Open(d, false, false);
      RunNothing(s);
      RunSnoc(s, "", '"');
      assert "" + "\"" == "\"";
      RunAppend(s, "\"", PrintElements(elements));
      InsideString(d, elements);
      RunSnoc(s, "\"" + PrintElements(elements), '"');
    }
  }

  /** A bracketed neutral text one level deeper is neutral. */
  lemma BracedIsNeutral(text: string)
    requires Neutral(text)
    ensures Neutral("{" + text + "}")
  {
    hide Run;
    forall d: int | d >= 1 ensures Run(Open(d, false, false), "{" + text + "}") == Open(d, false, false) {
      var s := Open(d, false, false);
      RunNothing(s);
      RunSnoc(s, "", '{');
      assert "" + "{" == "{";
      RunAppend(s, "{", text);
      RunSnoc(s, "{" + text, '}');
    }
  }

  lemma {:induction false} ValueIsNeutral(v: Value)
    requires ValueOk(v)
    ensures Neutral(Print(v))
  {
    hide Neutral, Run;
    match v
    case Atom(text) => CalmText(text);
    case Str(elements) => QuotedIsNeutral(elements);
    case Arr(open, items) =>
      ItemsAreNeutral(items);
      CalmText("[");
      CalmText("]");
      CalmText(open);
      NeutralAppend("[", open);
      NeutralAppend("[" + open, PrintItems(items));
      NeutralAppend("[" + open + PrintItems(items), "]");
    case Obj(open, members) =>
      MembersAreNeutral(members);
      CalmText(open);
      NeutralAppend(open, PrintMembers(members));
      BracedIsNeutral(open + PrintMembers(members));
      assert "{" + (open + PrintMembers(members)) + "}" == Print(v);
  }

  lemma {:induction false} ItemsAreNeutral(items: Items)
    requires ItemsOk(items)
    ensures Neutral(PrintItems(items))
  {
    hide Neutral, Run;
    match items
    case NoItems => CalmText("");
    case Item(before, value, after, rest) =>
      CalmText(before);
      ValueIsNeutral(value);
      CalmText(after);
      CalmText(Comma(rest.Item?));
      ItemsAreNeutral(rest);
      NeutralAppend(before, Print(value));
      NeutralAppend(before + Print(value), after);
      NeutralAppend(before + Print(value) + after, Comma(rest.Item?));
      NeutralAppend(before + Print(value) + after + Comma(rest.Item?), PrintItems(rest));
  }

  lemma {:induction false} MembersAreNeutral(members: Members)
    requires MembersOk(members)
    ensures Neutral(PrintMembers(members))
  {
    hide Neutral, Run;
    match members
    case NoMembers => CalmText("");
    case Member(before, key, beforeColon, afterColon, value, after, rest) =>
      CalmText(before);
      QuotedIsNeutral(key);
      CalmText(beforeColon);
      CalmText(":");
      CalmText(afterColon);
      ValueIsNeutral(value);
      CalmText(after);
      CalmText(Comma(rest.Member?));
      MembersAreNeutral(rest);
      var t := before + PrintString(key);
      NeutralAppend(before, PrintString(key));
      NeutralAppend(t, beforeColon);
      NeutralAppend(t + beforeColon, ":");
      NeutralAppend(t + beforeColon + ":", afterColon);
      NeutralAppend(t + beforeColon + ":" + afterColon, Print(value));
      NeutralAppend(t + beforeColon + ":" + afterColon + Print(value), after);
      NeutralAppend(t + beforeColon + ":" + afterColon + Print(value) + after, Comma(rest.Member?));
      NeutralAppend(t + beforeColon + ":" + afterColon + Print(value) + after + Comma(rest.Member?),
                    PrintMembers(rest));
  }

  /** Scanning a printed object from its opening brace closes exactly at its last character. */
  lemma PrintedIsBalanced(o: Value)
    requires o.Obj? && ValueOk(o)
    ensures Balanced(Print(o))
  {
    hide Run, Neutral;
    var inner := o.open + PrintMembers(o.members);
    var text := Print(o);
    assert text == "{" + inner + "}";
    assert Run(START, "{" + inner) == Open(1, false, false) by {
      CalmText(o.open);
      MembersAreNeutral(o.members);
      NeutralAppend(o.open, PrintMembers(o.members));
      OpeningBrace(inner);
    }
    RunSnoc(START, "{" + inner, '}');
    OpenNeverCloses("{" + inner);
    assert text[..|text| - 1] == "{" + inner;
  }

  lemma OpenNeverCloses(text: string)
    requires Run(START, text) != Closed
    ensures NeverCloses(text)
  {
    hide Run;
    forall n | 0 <= n <= |text| ensures Run(START, text[..n]) != Closed {
      assert text == text[..n] + text[n..];
      RunAppend(START, text[..n], text[n..]);
      ClosedStays(text[n..]);
    }
  }

  lemma OpeningBrace(inner: string)
    requires Neutral(inner)
    ensures Run(START, "{" + inner) == Open(1, false, false)
  {
    hide Run;
    RunNothing(START);
    RunSnoc(START, "", '{');
    assert "" + "{" == "{";
    RunAppend(START, "{", inner);
  }

  // --- Finding what was printed -------------------------------------------------------------------

  /** `text` is `body` with brace-free text in front and anything behind. */
  predicate Wraps(text: string, front: string, body: string, back: string) {
    text == front + body + back && forall i | 0 <= i < |front| :: front[i] != '{'
  }

  /** Starts with a brace, ends with a brace. */
  predicate Braced(body: string) { |body| >= 2 && body[0] == '{' && body[|body| - 1] == '}' }

  lemma WrappedIsFirst(text: string, front: string, body: string, back: string)
    requires Wraps(text, front, body, back) && Braced(body) && Balanced(body)
    ensures IsFirstObject(text, body)
  {
    hide Balanced;
    assert text[|front|] == '{';
    assert forall i | 0 <= i < |front| :: text[i] == front[i];
    assert FirstIndex(text, '{', 0) == |front|;
    assert text[|front|..|front| + |body|] == body;
  }

  lemma {:induction false} LStripFront(front: string, t: string)
    requires t != "" && !IsSpace(t[0])
    ensures LStrip(front + t) == LStrip(front) + t
  {
    if front == "" {
      assert front + t == t && LStrip(front) + t == t;
    } else {
      assert (front + t)[1..] == front[1..] + t;
      LStripFront(front[1..], t);
    }
  }

  lemma {:induction false} RStripBack(t: string, back: string)
    requires t != "" && !IsSpace(t[|t| - 1])
    ensures RStrip(t + back) == t + RStrip(back)
  {
    if back == "" {
      assert t + back == t && t + RStrip(back) == t;
    } else {
      var n := |back| - 1;
      assert (t + back)[..|t + back| - 1] == t + back[..n];
      if IsSpace(back[n]) {
        RStripBack(t, back[..n]);
      }
    }
  }

  lemma BracesAreNotSpace()
    ensures !IsSpace('{') && !IsSpace('}')
  {
  }

  /** Stripping only touches what is around the object. */
  lemma StripAround(front: string, body: string, back: string)
    requires Braced(body)
    ensures Strip(front + body + back) == LStrip(front) + body + RStrip(back)
  {
    hide IsSpace, LStrip, RStrip, Blank;
    BracesAreNotSpace();
    assert front + body + back == front + (body + back);
    LStripFront(front, body + back);
    var t := LStrip(front) + body;
    assert LStrip(front) + (body + back) == t + back;
    assert t[|t| - 1] == '}';
    RStripBack(t, back);
  }

  lemma StripKeepsWraps(text: string, front: string, body: string, back: string)
    requires Wraps(text, front, body, back) && Braced(body)
    ensures Wraps(Strip(text), LStrip(front), body, RStrip(back))
  {
    StripAround(front, body, back);
  }

  /** A closing fence is cut off behind the object, never out of it. */
  lemma FenceCutKeepsWraps(text: string, front: string, body: string, back: string)
    requires Wraps(text, front, body, back) && Braced(body) && EndsWithFence(RStrip(text))
    ensures 3 <= |RStrip(back)|
    ensures Wraps(RStrip(text)[..|RStrip(text)| - 3], front, body, RStrip(back)[..|RStrip(back)| - 3])
  {
    hide IsSpace, LStrip, RStrip, Blank;
    BracesAreNotSpace();
    RStripBack(front + body, back);
    var trimmed, tail := RStrip(text), RStrip(back);
    assert trimmed == front + body + tail;
    var fence := trimmed[|trimmed| - 3..];
    assert fence == "```";
    assert trimmed[|front| + |body| - 1] == '}';
    assert forall k | 0 <= k < 3 :: fence[k] == trimmed[|trimmed| - 3 + k];
    assert trimmed[..|trimmed| - 3] == front + body + tail[..|tail| - 3];
  }

  /** A reply that opens with a fence must end the fence line before the object, or have no
      line break at all. */
  predicate Recoverable(front: string, body: string, back: string) {
    StartsWithFence(LStrip(front)) ==>
      '\n' in LStrip(front) || '\n' !in LStrip(front) + body + RStrip(back)
  }

  lemma FenceIsInFront(front: string, body: string, back: string)
    requires Braced(body)
    ensures StartsWithFence(front + body + back) <==> StartsWithFence(front)
  {
    var text := front + body + back;
    if |front| >= 3 {
      assert text[..3] == front[..3];
    } else if |text| >= 3 {
      assert text[..3][|front|] == '{';
    }
  }

  lemma FirstNewline(text: string, front: string, rest: string)
    requires text == front + rest
    ensures '\n' in front ==> 0 <= FirstIndex(text, '\n', 0) < |front|
    ensures '\n' !in text ==> FirstIndex(text, '\n', 0) == -1
    ensures '\n' in text && '\n' !in front ==> FirstIndex(text, '\n', 0) >= |front|
  {
    var k := FirstIndex(text, '\n', 0);
    assert forall i | 0 <= i < |front| :: text[i] == front[i];
    if '\n' in front {
      var i :| 0 <= i < |front| && front[i] == '\n';
      assert text[i] == '\n';
    }
  }

  /** The printed object is exactly what is found, for any brace-free text in front and any
      text behind, fenced or not. */
  lemma PrintedIsFound(front: string, o: Value, back: string)
    requires o.Obj? && ValueOk(o)
    requires forall i | 0 <= i < |front| :: front[i] != '{'
    requires Recoverable(front, Print(o), back)
    ensures IsFirstObject(Unfenced(front + Print(o) + back), Print(o))
  {
    hide Balanced, MembersOk, FirstIndex, IsSpace, LStrip, RStrip, Blank, Wraps, PrintMembers;
    var body := Print(o);
    PrintedIsBalanced(o);
    var f, b := LStrip(front), RStrip(back);
    var stripped := Strip(front + body + back);
    assert Wraps(stripped, f, body, b) && stripped == f + body + b by {
      FrontWraps(front, body, back);
      StripKeepsWraps(front + body + back, front, body, back);
      StripAround(front, body, back);
    }
    FenceIsInFront(f, body, b);
    if !StartsWithFence(f) {
      WrappedIsFirst(stripped, f, body, b);
    } else {
      FencedIsFound(stripped, f, body, b);
    }
  }

  lemma FrontWraps(front: string, body: string, back: string)
    requires forall i | 0 <= i < |front| :: front[i] != '{'
    ensures Wraps(front + body + back, front, body, back)
  {
  }

  lemma DropFront(text: string, front: string, body: string, back: string, k: nat)
    requires Wraps(text, front, body, back) && k <= |front|
    ensures Wraps(text[k..], front[k..], body, back)
  {
    assert text[k..] == front[k..] + body + back;
  }

  lemma FencedIsFound(stripped: string, front: string, body: string, back: string)
    requires Wraps(stripped, front, body, back) && Braced(body) && Balanced(body)
    requires '\n' in front || '\n' !in stripped
    ensures IsFirstObject(FenceBody(stripped), body)
  {
    hide Balanced, FirstIndex, Strip, CutFence, IsFirstObject, Braced;
    assert stripped == front + (body + back);
    FirstNewline(stripped, front, body + back);
    var k := FirstIndex(stripped, '\n', 0);
    if k == -1 {
      CutFenceFound(stripped, front, body, back);
    } else {
      DropFront(stripped, front, body, back, k + 1);
      CutFenceFound(stripped[k + 1..], front[k + 1..], body, back);
    }
  }

  lemma CutFenceFound(inner: string, front: string, body: string, back: string)
    requires Wraps(inner, front, body, back) && Braced(body) && Balanced(body)
    ensures IsFirstObject(Strip(CutFence(inner)), body)
  {
    hide Balanced, IsSpace, LStrip, RStrip, Blank, Wraps, Braced, Strip, IsFirstObject;
    var trimmed := RStrip(inner);
    if EndsWithFence(trimmed) {
      FenceCutKeepsWraps(inner, front, body, back);
      var b := RStrip(back)[..|RStrip(back)| - 3];
      StripKeepsWraps(trimmed[..|trimmed| - 3], front, body, b);
      WrappedIsFirst(Strip(trimmed[..|trimmed| - 3]), LStrip(front), body, RStrip(b));
    } else {
      StripKeepsWraps(inner, front, body, back);
      WrappedIsFirst(Strip(inner), LStrip(front), body, RStrip(back));
    }
  }

  predicate BraceFree(s: string) { forall i | 0 <= i < |s| :: s[i] != '{' }

  lemma StripKeepsBraceFree(s: string)
    requires BraceFree(s)
    ensures BraceFree(LStrip(s)) && BraceFree(RStrip(s)) && BraceFree(Strip(s))
  {
    hide IsSpace, LStrip, RStrip, Blank;
    var l := LStrip(s);
    assert l == s[|s| - |l|..] && RStrip(l) == l[..|RStrip(l)|];
  }

  lemma BraceFreeHasNoObject(s: string)
    requires BraceFree(s)
    ensures HasNoObject(s)
  {
  }

  lemma NewlineBehind(text: string, front: string, back: string)
    requires text == front + back && '\n' !in front && '\n' in back
    ensures FirstIndex(text, '\n', 0) >= |front|
  {
    var i :| 0 <= i < |back| && back[i] == '\n';
    assert text[|front| + i] == '\n';
    FirstNewline(text, front, back);
  }

  lemma HiddenObject(stripped: string, front: string, back: string)
    requires stripped == front + back && BraceFree(back)
    requires '\n' !in front && '\n' in back
    ensures HasNoObject(FenceBody(stripped))
  {
    hide BraceFree, HasNoObject, FirstIndex, Strip, LStrip, RStrip, CutFence;
    NewlineBehind(stripped, front, back);
    var k := FirstIndex(stripped, '\n', 0);
    var inner := stripped[k + 1..];
    assert BraceFree(inner) by {
      assert inner == back[k + 1 - |front|..];
      BraceFreeSuffix(back, k + 1 - |front|);
    }
    StripKeepsBraceFree(inner);
    CutKeepsBraceFree(inner);
    StripKeepsBraceFree(CutFence(inner));
    BraceFreeHasNoObject(Strip(CutFence(inner)));
  }

  lemma CutKeepsBraceFree(inner: string)
    requires BraceFree(inner)
    ensures BraceFree(CutFence(inner))
  {
    hide LStrip, RStrip, Blank, IsSpace;
    StripKeepsBraceFree(inner);
  }

  lemma BraceFreeSuffix(s: string, k: nat)
    requires BraceFree(s) && k <= |s|
    ensures BraceFree(s[k..])
  {
  }

  /** How many opening braces a text has. */
  function Braces(s: string): nat {
    if s == "" then 0 else Braces(s[..|s| - 1]) + (if s[|s| - 1] == '{' then 1 else 0)
  }

  lemma {:induction false} BracesAppend(a: string, b: string)
    ensures Braces(a + b) == Braces(a) + Braces(b)
  {
    if b == "" {
      assert a + b == a;
    } else {
      assert (a + b)[..|a + b| - 1] == a + b[..|b| - 1];
      BracesAppend(a, b[..|b| - 1]);
    }
  }

  lemma {:induction false} NoBraces(s: string)
    requires BraceFree(s)
    ensures Braces(s) == 0
  {
    if s != "" {
      NoBraces(s[..|s| - 1]);
    }
  }

  lemma BracesOfSuffix(s: string, k: nat)
    requires k <= |s|
    ensures Braces(s[k..]) <= Braces(s) && Braces(s[..k]) <= Braces(s)
  {
    BracesAppend(s[..k], s[k..]);
    assert s == s[..k] + s[k..];
  }

  lemma StripKeepsBraces(s: string)
    ensures Braces(RStrip(s)) <= Braces(s) && Braces(Strip(s)) <= Braces(s)
  {
    hide LStrip, RStrip, Blank, IsSpace, Braces;
    var l := LStrip(s);
    BracesOfSuffix(s, |s| - |l|);
    BracesOfSuffix(l, |RStrip(l)|);
    BracesOfSuffix(s, |RStrip(s)|);
  }

  lemma FenceBodyBraces(inner: string)
    ensures Braces(Strip(CutFence(inner))) <= Braces(inner)
  {
    hide LStrip, RStrip, Strip, Blank, IsSpace, Braces;
    var trimmed := RStrip(inner);
    StripKeepsBraces(inner);
    StripKeepsBraces(CutFence(inner));
    if EndsWithFence(trimmed) {
      BracesOfSuffix(trimmed, |trimmed| - 3);
    }
  }

  lemma FoundBraces(s: string, r: string)
    requires IsFirstObject(s, r)
    ensures Braces(r) <= Braces(s)
  {
    hide Balanced, Braces, FirstIndex;
    var start := FirstIndex(s, '{', 0);
    BracesOfSuffix(s, start);
    BracesOfSuffix(s[start..], |r|);
    assert s[start..][..|r|] == r;
  }

  /** Cutting a fence line that reaches into the object takes its first brace along. */
  lemma CutObjectIsLost(stripped: string, front: string, body: string, back: string)
    requires stripped == front + body + back && Braced(body) && BraceFree(back)
    requires '\n' !in front && '\n' in body + back
    ensures !IsFirstObject(FenceBody(stripped), body)
  {
    hide *;
    if IsFirstObject(FenceBody(stripped), body) {
      CutLosesBrace(stripped, front, body, back);
      FoundBraces(FenceBody(stripped), body);
    }
  }

  lemma CutLosesBrace(stripped: string, front: string, body: string, back: string)
    requires stripped == front + body + back && Braced(body) && BraceFree(back)
    requires '\n' !in front && '\n' in body + back
    ensures Braces(FenceBody(stripped)) < Braces(body)
  {
    hide Strip, CutFence, Braces, BraceFree, FirstIndex;
    var whole := body + back;
    assert stripped == front + whole;
    NewlineBehind(stripped, front, whole);
    var k := FirstIndex(stripped, '\n', 0);
    FenceBodyBraces(stripped[k + 1..]);
    assert stripped[k + 1..] == whole[k + 1 - |front|..];
    assert Braces(whole[k + 1 - |front|..]) < Braces(whole) by { BehindTheFirst(whole, k + 1 - |front|); }
    BracesAppend(body, back);
    NoBraces(back);
  }

  lemma BehindTheFirst(s: string, k: nat)
    requires 1 <= k <= |s| && s[0] == '{'
    ensures Braces(s[k..]) < Braces(s)
  {
    hide Braces;
    var rest := s[1..];
    assert s == "{" + rest && s[k..] == rest[k - 1..];
    BracesOfSuffix(rest, k - 1);
    BracesAppend("{", rest);
    OneBrace();
  }

  lemma OneBrace()
    ensures Braces("{") == 1
  {
    assert "{"[..0] == "";
  }

  /** When no further brace comes behind the object that condition is exact. If moreover the object is
      written on one line, nothing at all is found. */
  lemma PrintedIsFoundIff(front: string, o: Value, back: string)
    requires o.Obj? && ValueOk(o) && BraceFree(front) && BraceFree(back)
    ensures Recoverable(front, Print(o), back) <==> IsFirstObject(Unfenced(front + Print(o) + back), Print(o))
    ensures !Recoverable(front, Print(o), back) && '\n' !in Print(o) ==> HasNoObject(Unfenced(front + Print(o) + back))
  {
    hide Balanced, MembersOk, FirstIndex, IsSpace, LStrip, RStrip, Blank, PrintMembers, IsFirstObject, HasNoObject,
         Strip, FenceBody, BraceFree;
    var body := Print(o);
    if Recoverable(front, body, back) {
      BraceFreeMeans(front);
      PrintedIsFound(front, o, back);
    } else {
      var f, b := LStrip(front), RStrip(back);
      var stripped := Strip(front + body + back);
      assert stripped == f + body + b by { StripAround(front, body, back); }
      FenceIsInFront(f, body, b);
      StripKeepsBraceFree(back);
      CutObjectIsLost(stripped, f, body, b);
      if '\n' !in body {
        HiddenObject(stripped, f + body, b);
      }
    }
  }

  lemma BraceFreeMeans(s: string)
    requires BraceFree(s)
    ensures forall i | 0 <= i < |s| :: s[i] != '{'
  {
  }

  /** Such objects exist: three backticks right before an object printed over two lines hide it. */
  lemma FencedObjectIsHidden()
    ensures var o := Obj("\n", NoMembers);
            && ValueOk(o) && Print(o) == "{\n}" && BraceFree("```")
            && !Recoverable("```", Print(o), "") && !IsFirstObject(Unfenced("```" + Print(o) + ""), Print(o))
  {
    hide IsFirstObject, Unfenced, LStrip, RStrip, Strip;
    var o := Obj("\n", NoMembers);
    assert Print(o) == "{\n}";
    FenceIsNoSpace();
    var text := "```" + Print(o) + "";
    assert text[4] == '\n';
    PrintedIsFoundIff("```", o, "");
  }

  lemma FenceIsNoSpace()
    ensures LStrip("```") == "```" && RStrip("") == ""
  {
  }

  /** Print, wrap in prose, extract: the object comes back. */
  method ExtractPrinted(front: string, o: Value, back: string) returns (r: Option<string>)
    requires o.Obj? && ValueOk(o)
    requires forall i | 0 <= i < |front| :: front[i] != '{'
    requires Recoverable(front, Print(o), back)
    ensures r == Some(Print(o))
  {
    hide Run, NeverCloses, PrintMembers, MembersOk, Recoverable, ValueOk, Unfenced;
    var text := front + Print(o) + back;
    r := ExtractJson(text);
    PrintedIsFound(front, o, back);
    FoundMeansSome(Unfenced(text), Print(o));
    if r.Some? {
      FirstObjectIsUnique(Unfenced(text), r.value, Print(o));
    }
  }

  lemma FoundMeansSome(s: string, r: string)
    requires IsFirstObject(s, r)
    ensures !HasNoObject(s)
  {
    var start := FirstIndex(s, '{', 0);
    assert s[start..][..|r|] == r;
  }
}
