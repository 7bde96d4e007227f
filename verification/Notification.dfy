/**
 The Discord message that announces a source's articles of the day: titles made safe for the
 Markdown link they stand in, as many lines as a budget of 1800 units allows, and a cut at 2000.
 Texts are sequences of UTF-16 code units, which is what the length of a string counts.
 */
module Notification {
  import opened Wrappers
  import opened Numbers
  import opened Decimals

  type Unit = u: int | 0 <= u < 0x10000

  type Text = seq<Unit>

  const SPACE: Unit := 0x20
  const LF: Unit := 0x0A
  const CR: Unit := 0x0D
  const BACKSLASH: Unit := 0x5C
  const BACKTICK: Unit := 0x60
  const OPEN_BRACKET: Unit := 0x5B
  const CLOSE_BRACKET: Unit := 0x5D
  const OPEN_PAREN: Unit := 0x28
  const CLOSE_PAREN: Unit := 0x29

  /** The code units of one character: one, or a surrogate pair. */
  function Units(c: char): (units: Text)
    ensures 1 <= |units| <= 2
  {
    var code := c as int;
    if code < 0x10000 then [code]
    else [0xD800 + (code - 0x10000) / 0x400, 0xDC00 + (code - 0x10000) % 0x400]
  }

  function Utf16(s: string): (text: Text)
    ensures |s| <= |text| <= 2 * |s|
  {
    if s == [] then [] else Units(s[0]) + Utf16(s[1..])
  }

  // ---------------------------------------------------------------- Titles

  predicate IsBreak(u: Unit) {
    u == CR || u == LF
  }

  /** replace(/[\r\n]+/g, ' ') */
  function Collapse(t: Text, inBreak: bool): Text {
    if t == [] then []
    else if IsBreak(t[0]) then (if inBreak then [] else [SPACE]) + Collapse(t[1..], true)
    else [t[0]] + Collapse(t[1..], false)
  }

  /** replace(/c/g, '\c') */
  function Replace(t: Text, c: Unit): Text {
    if t == [] then [] else (if t[0] == c then [BACKSLASH, c] else [t[0]]) + Replace(t[1..], c)
  }

  /** The seven replacements, one after the other, each over the whole result of the one before. */
  function SafeTitle(title: Text): Text {
    Replace(Replace(Replace(Replace(Replace(Replace(Collapse(title, false),
      BACKSLASH), BACKTICK), OPEN_BRACKET), CLOSE_BRACKET), OPEN_PAREN), CLOSE_PAREN)
  }

  const SPECIAL: set<Unit> := {BACKSLASH, BACKTICK, OPEN_BRACKET, CLOSE_BRACKET, OPEN_PAREN, CLOSE_PAREN}

  /** One pass: a backslash before every unit of the set. */
  function Escape(t: Text, special: set<Unit>): Text {
    if t == [] then [] else (if t[0] in special then [BACKSLASH, t[0]] else [t[0]]) + Escape(t[1..], special)
  }

  /** Drops each backslash and keeps the unit after it. */
  function Unescape(t: Text): Text {
    if t == [] then []
    else if t[0] == BACKSLASH && |t| > 1 then [t[1]] + Unescape(t[2..])
    else [t[0]] + Unescape(t[1..])
  }

  lemma {:induction false} ReplaceAfterEscape(t: Text, special: set<Unit>, c: Unit)
    requires c !in special && c != BACKSLASH
    ensures Replace(Escape(t, special), c) == Escape(t, special + {c})
  {
    if t != [] {
      ReplaceAfterEscape(t[1..], special, c);
      var head := if t[0] in special then [BACKSLASH, t[0]] else [t[0]];
      ReplaceConcat(head, Escape(t[1..], special), c);
      assert Replace(head, c) == if t[0] in special + {c} then [BACKSLASH, t[0]] else [t[0]] by {
        if t[0] in special { assert head[1..] == [t[0]] && head[1..][1..] == []; } else { assert head[1..] == []; }
      }
    }
  }

  lemma {:induction false} ReplaceConcat(a: Text, b: Text, c: Unit)
    ensures Replace(a + b, c) == Replace(a, c) + Replace(b, c)
  {
    if a == [] {
      assert a + b == b;
    } else {
      assert (a + b)[1..] == a[1..] + b;
      ReplaceConcat(a[1..], b, c);
    }
  }

  lemma {:induction false} ReplaceIsEscape(t: Text, c: Unit)
    ensures Replace(t, c) == Escape(t, {c})
  {
    if t != [] { ReplaceIsEscape(t[1..], c); }
  }

  lemma {:induction false} UnescapeEscape(t: Text, special: set<Unit>)
    requires BACKSLASH in special
    ensures Unescape(Escape(t, special)) == t
  {
    if t != [] {
      UnescapeEscape(t[1..], special);
      var e := Escape(t, special);
      if t[0] in special {
        assert e[2..] == Escape(t[1..], special);
      } else {
        assert e[1..] == Escape(t[1..], special);
      }
    }
  }

  lemma {:induction false} CollapseRemovesBreaks(t: Text, inBreak: bool)
    ensures forall u :: u in Collapse(t, inBreak) ==> !IsBreak(u)
    ensures (forall u :: u in t ==> !IsBreak(u)) ==> Collapse(t, inBreak) == t
  {
    if t != [] { CollapseRemovesBreaks(t[1..], IsBreak(t[0])); }
  }

  /**
   The replacements done one after the other equal a single pass: no step touches a backslash that
   an earlier one put in. So the safe title can be read back to the title with its breaks collapsed.
   */
  lemma SafeTitleIsReversible(title: Text)
    ensures SafeTitle(title) == Escape(Collapse(title, false), SPECIAL)
    ensures SPECIAL == {0x5C, 0x60, 0x5B, 0x5D, 0x28, 0x29}
    ensures Unescape(SafeTitle(title)) == Collapse(title, false)
    ensures (forall u :: u in title ==> !IsBreak(u)) ==> Unescape(SafeTitle(title)) == title
  {
    var t := Collapse(title, false);
    ReplaceIsEscape(t, BACKSLASH);
    ReplaceAfterEscape(t, {BACKSLASH}, BACKTICK);
    ReplaceAfterEscape(t, {BACKSLASH} + {BACKTICK}, OPEN_BRACKET);
    ReplaceAfterEscape(t, {BACKSLASH} + {BACKTICK} + {OPEN_BRACKET}, CLOSE_BRACKET);
    ReplaceAfterEscape(t, {BACKSLASH} + {BACKTICK} + {OPEN_BRACKET} + {CLOSE_BRACKET}, OPEN_PAREN);
    ReplaceAfterEscape(t, {BACKSLASH} + {BACKTICK} + {OPEN_BRACKET} + {CLOSE_BRACKET} + {OPEN_PAREN}, CLOSE_PAREN);
    assert {BACKSLASH} + {BACKTICK} + {OPEN_BRACKET} + {CLOSE_BRACKET} + {OPEN_PAREN} + {CLOSE_PAREN} == SPECIAL;
    UnescapeEscape(t, SPECIAL);
    CollapseRemovesBreaks(title, false);
  }

  // ---------------------------------------------------------------- The message

  const BUDGET := 1800

  datatype SavedArticle = SavedArticle(id: nat, title: Text)

  /** The fixed parts of the messages. */
  datatype Phrases = Phrases(
    opening: string, arrival: string,
    lineBreak: string, afterNumber: string, beforeUrl: string, beforeId: string, afterId: string,
    beforeCount: string, afterCount: string,
    cutNote: string)

  function Korean(): (p: Phrases)
    ensures |p.opening| + |p.arrival| <= 40 && |p.beforeCount| + |p.afterCount| <= 40 && |p.cutNote| <= 25
  {
    Phrases(
      "\U{1F4E2} **[",
      "] \U{C0C8}\U{B85C}\U{C6B4} \U{D2B8}\U{B80C}\U{B4DC} \U{C544}\U{D2F0}\U{D074}\U{C774} \U{B3C4}\U{CC29}\U{D588}\U{C2B5}\U{B2C8}\U{B2E4}!**\n",
      "\n", ". [", "](<", "/?id=", ">)",
      "\n\n...\U{C678} **",
      "\U{AC1C}**\U{C758} \U{C544}\U{D2F0}\U{D074}\U{C774} \U{B354} \U{C788}\U{C2B5}\U{B2C8}\U{B2E4}.",
      "\n\n... (\U{AE38}\U{C774} \U{CD08}\U{ACFC}\U{B85C} \U{C808}\U{C0AD}\U{B428})")
  }

  function Header(p: Phrases, source: Text): Text {
    Utf16(p.opening) + source + Utf16(p.arrival)
  }

  function DetailUrl(p: Phrases, baseUrl: Text, article: SavedArticle): Text {
    baseUrl + Utf16(p.beforeId) + Utf16(Decimal(article.id))
  }

  function Line(p: Phrases, baseUrl: Text, article: SavedArticle, index: nat): Text {
    Utf16(p.lineBreak) + Utf16(Decimal(index + 1)) + Utf16(p.afterNumber) + SafeTitle(article.title) + Utf16(p.beforeUrl)
    + DetailUrl(p, baseUrl, article) + Utf16(p.afterId)
  }

  function Remaining(p: Phrases, count: nat): Text {
    Utf16(p.beforeCount) + Utf16(Decimal(count)) + Utf16(p.afterCount)
  }

  /** The lines of the message, by index. */
  function Lines(p: Phrases, baseUrl: Text, articles: seq<SavedArticle>): nat -> Text {
    (i: nat) => if i < |articles| then Line(p, baseUrl, articles[i], i) else []
  }

  /** The header and the first m lines. */
  function Listing(header: Text, lines: nat -> Text, m: nat): Text {
    if m == 0 then header else Listing(header, lines, m - 1) + lines(m - 1)
  }

  /** The first m of n lines fit 1800 units, and no longer prefix does. */
  predicate LongestFitting(header: Text, lines: nat -> Text, n: nat, m: nat) {
    && m <= n
    && (m > 0 ==> |Listing(header, lines, m)| <= 1800)
    && (m < n ==> |Listing(header, lines, m + 1)| > 1800)
  }

  /** The first m lines and, if there are more, how many. */
  function Message(header: Text, lines: nat -> Text, remaining: nat -> Text, n: nat, m: nat): Text
    requires m <= n
  {
    Listing(header, lines, m) + (if m < n then remaining(n - m) else [])
  }

  /** Appends lines while they fit; listed and left out together are all of them. */
  method ListArticles(header: Text, lines: nat -> Text, remaining: nat -> Text, n: nat)
    returns (message: Text, listed: nat)
    ensures LongestFitting(header, lines, n, listed)
    ensures message == Message(header, lines, remaining, n, listed)
  {
    message, listed := header, 0;
    while listed < n
      invariant listed <= n && message == Listing(header, lines, listed)
      invariant listed > 0 ==> |message| <= BUDGET
    {
      var line := lines(listed);
      if |message| + |line| > BUDGET {
        message := message + remaining(n - listed);
        return;
      }
      message := message + line;
      listed := listed + 1;
    }
  }

  /** The message to the users: nothing without a source or without articles of the day. */
  method BuildUserMessage(p: Phrases, source: Option<Text>, baseUrl: Text, articles: seq<SavedArticle>)
    returns (message: Text, listed: nat)
    ensures source.None? || source.value == [] || articles == [] ==> message == []
    ensures source.Some? && source.value != [] && articles != [] ==>
              var header, lines := Header(p, source.value), Lines(p, baseUrl, articles);
              && LongestFitting(header, lines, |articles|, listed)
              && message == Message(header, lines, count => Remaining(p, count), |articles|, listed)
  {
    message, listed := [], 0;
    if source.Some? && source.value != [] && |articles| > 0 {
      message, listed := ListArticles(Header(p, source.value), Lines(p, baseUrl, articles),
                                      count => Remaining(p, count), |articles|);
    }
  }

  lemma {:induction false} ListingGrows(header: Text, lines: nat -> Text, m: nat, n: nat)
    requires m <= n
    ensures |Listing(header, lines, m)| <= |Listing(header, lines, n)|
  {
    if m < n { ListingGrows(header, lines, m, n - 1); }
  }

  /** Only one prefix is the longest that fits: all shorter ones fit, all longer ones exceed the budget. */
  lemma LongestIsUnique(header: Text, lines: nat -> Text, n: nat, m: nat, k: nat)
    requires LongestFitting(header, lines, n, m) && k <= n
    ensures k > m ==> |Listing(header, lines, k)| > BUDGET
    ensures 0 < k <= m ==> |Listing(header, lines, k)| <= BUDGET
    ensures LongestFitting(header, lines, n, k) ==> k == m
  {
    if k > m {
      ListingGrows(header, lines, m + 1, k);
    } else if k < m {
      ListingGrows(header, lines, k, m);
      ListingGrows(header, lines, k + 1, m);
    }
  }

  // ---------------------------------------------------------------- What a reader gets back

  const DOT: Unit := 0x2E

  /** A line of the list as Markdown reads it: its number, the text of the link, the target of the link. */
  datatype Item = Item(number: Text, title: Text, url: Text)

  function Drop(t: Text, n: nat): Text {
    t[Min(n, |t|)..]
  }

  /** The text before the first such unit, and the rest from there. */
  function SplitAt(t: Text, u: Unit): (Text, Text) {
    if t == [] || t[0] == u then ([], t)
    else
      var (before, rest) := SplitAt(t[1..], u);
      ([t[0]] + before, rest)
  }

  /** The text of a link up to its closing bracket, backslashes removed, and the rest from that bracket. */
  function SplitLink(t: Text): (Text, Text) {
    if t == [] || t[0] == CLOSE_BRACKET then ([], t)
    else if t[0] == BACKSLASH && |t| > 1 then
      var (title, rest) := SplitLink(t[2..]);
      ([t[1]] + title, rest)
    else
      var (title, rest) := SplitLink(t[1..]);
      ([t[0]] + title, rest)
  }

  /** newline, number, ". [", title, "](<", url, ">)" */
  function ReadLine(line: Text): Item {
    var (number, afterNumber) := SplitAt(Drop(line, 1), DOT);
    var (title, link) := SplitLink(Drop(afterNumber, 3));
    Item(number, title, if |link| >= 5 then link[3..|link| - 2] else [])
  }

  lemma {:induction false} SplitAtFinds(a: Text, u: Unit, b: Text)
    requires u !in a
    ensures SplitAt(a + [u] + b, u) == (a, [u] + b)
  {
    if a == [] {
      assert a + [u] + b == [u] + b;
    } else {
      var all := a + [u] + b;
      SplitAtFinds(a[1..], u, b);
      assert all[1..] == a[1..] + [u] + b;
      assert a[0] in a && all[0] == a[0];
      assert [a[0]] + a[1..] == a;
    }
  }

  lemma SplitLinkStep(u: Unit, rest: Text)
    ensures var (title, after) := SplitLink(rest);
            && SplitLink([BACKSLASH, u] + rest) == ([u] + title, after)
            && (u != BACKSLASH && u != CLOSE_BRACKET ==> SplitLink([u] + rest) == ([u] + title, after))
  {
    assert ([BACKSLASH, u] + rest)[2..] == rest && ([u] + rest)[1..] == rest;
  }

  lemma {:induction false} SplitLinkFinds(t: Text, special: set<Unit>, b: Text)
    requires BACKSLASH in special && CLOSE_BRACKET in special
    ensures SplitLink(Escape(t, special) + [CLOSE_BRACKET] + b) == (t, [CLOSE_BRACKET] + b)
  {
    if t == [] {
      assert Escape(t, special) + [CLOSE_BRACKET] + b == [CLOSE_BRACKET] + b;
    } else {
      SplitLinkFinds(t[1..], special, b);
      var head := if t[0] in special then [BACKSLASH, t[0]] else [t[0]];
      var rest := Escape(t[1..], special) + [CLOSE_BRACKET] + b;
      assert Escape(t, special) + [CLOSE_BRACKET] + b == head + rest;
      SplitLinkStep(t[0], rest);
      assert [t[0]] + t[1..] == t;
    }
  }

  lemma {:induction false} DigitsHaveNoDot(s: string)
    requires forall c :: c in s ==> IsDigit(c)
    ensures DOT !in Utf16(s)
  {
    if s != [] {
      assert s[0] in s && forall c :: c in s[1..] ==> c in s;
      DigitsHaveNoDot(s[1..]);
    }
  }

  lemma PhraseUnits(p: Phrases)
    requires p == Korean()
    ensures Utf16(p.lineBreak) == [LF] && Utf16(p.afterNumber) == [DOT, SPACE, OPEN_BRACKET]
    ensures Utf16(p.beforeUrl) == [CLOSE_BRACKET, OPEN_PAREN, 0x3C] && |Utf16(p.afterId)| == 2
  {
    assert ". ["[1..] == " [" && " ["[1..] == "[" && "["[1..] == "";
    assert "](<"[1..] == "(<" && "(<"[1..] == "<" && "<"[1..] == "";
    assert ">)"[1..] == ")" && ")"[1..] == "";
    assert "\n"[1..] == "";
  }

  lemma PartsReadBack(number: Text, title: Text, url: Text, end: Text)
    requires DOT !in number && |end| == 2
    ensures ReadLine([LF] + number + [DOT, SPACE, OPEN_BRACKET] + Escape(title, SPECIAL) + [CLOSE_BRACKET, OPEN_PAREN, 0x3C]
                     + url + end)
            == Item(number, title, url)
  {
    var link := [OPEN_PAREN, 0x3C] + url + end;
    var afterTitle := Escape(title, SPECIAL) + [CLOSE_BRACKET] + link;
    var line := [LF] + number + [DOT, SPACE, OPEN_BRACKET] + Escape(title, SPECIAL) + [CLOSE_BRACKET, OPEN_PAREN, 0x3C]
                + url + end;
    assert Drop(line, 1) == number + [DOT] + ([SPACE, OPEN_BRACKET] + afterTitle);
    SplitAtFinds(number, DOT, [SPACE, OPEN_BRACKET] + afterTitle);
    assert Drop([DOT] + ([SPACE, OPEN_BRACKET] + afterTitle), 3) == afterTitle;
    SplitLinkFinds(title, SPECIAL, link);
    var rest := [CLOSE_BRACKET] + link;
    assert rest[3..|rest| - 2] == url;
  }

  /**
   Whatever is in the title, line i reads back as number i+1, a link text that is the title with its
   line breaks collapsed, and a target that is the address of that article's page.
   */
  lemma LineReadsBack(p: Phrases, baseUrl: Text, article: SavedArticle, index: nat)
    requires p == Korean()
    ensures ReadLine(Line(p, baseUrl, article, index))
            == Item(Utf16(Decimal(index + 1)), Collapse(article.title, false), DetailUrl(p, baseUrl, article))
  {
    PhraseUnits(p);
    DecimalReadsBack(index + 1);
    DigitsHaveNoDot(Decimal(index + 1));
    SafeTitleIsReversible(article.title);
    PartsReadBack(Utf16(Decimal(index + 1)), Collapse(article.title, false), DetailUrl(p, baseUrl, article), Utf16(p.afterId));
  }

  lemma {:induction false} Utf16OfDigits(s: string)
    requires forall c :: c in s ==> IsDigit(c)
    ensures |Utf16(s)| == |s| && forall i :: 0 <= i < |s| ==> Utf16(s)[i] == s[i] as int
  {
    if s != [] {
      assert s[0] in s && forall c :: c in s[1..] ==> c in s;
      Utf16OfDigits(s[1..]);
    }
  }

  /** Printed numbers are different for different numbers: list numbers, article ids and counts can be read back. */
  lemma PrintedNumbersDiffer(m: nat, n: nat)
    ensures Utf16(Decimal(m)) == Utf16(Decimal(n)) ==> m == n
  {
    DecimalReadsBack(m);
    DecimalReadsBack(n);
    Utf16OfDigits(Decimal(m));
    Utf16OfDigits(Decimal(n));
    if Utf16(Decimal(m)) == Utf16(Decimal(n)) {
      forall i | 0 <= i < |Decimal(m)| ensures Decimal(m)[i] == Decimal(n)[i] {
        assert Utf16(Decimal(m))[i] == Utf16(Decimal(n))[i];
      }
      assert Decimal(m) == Decimal(n);
    }
  }

  /** The header names the source, and the last line the number of articles left out, between fixed phrases. */
  lemma MessageNamesItsParts(p: Phrases, source: Text, other: Text, count: nat, more: nat)
    ensures Header(p, source) == Header(p, other) ==> source == other
    ensures Remaining(p, count) == Remaining(p, more) ==> count == more
  {
    if Header(p, source) == Header(p, other) {
      BetweenIsDetermined(Utf16(p.opening), source, other, Utf16(p.arrival));
    }
    if Remaining(p, count) == Remaining(p, more) {
      BetweenIsDetermined(Utf16(p.beforeCount), Utf16(Decimal(count)), Utf16(Decimal(more)), Utf16(p.afterCount));
      PrintedNumbersDiffer(count, more);
    }
  }

  lemma BetweenIsDetermined(before: Text, a: Text, b: Text, after: Text)
    requires before + a + after == before + b + after
    ensures a == b
  {
    assert |a| == |b|;
    assert (before + a + after)[|before|..|before| + |a|] == a && (before + b + after)[|before|..|before| + |b|] == b;
  }

  // ---------------------------------------------------------------- Sending

  const DISCORD_LIMIT := 2000

  method SendNotification(p: Phrases, message: Text, webhookConfigured: bool) returns (posted: Option<Text>)
    ensures posted.None? <==> !webhookConfigured
    ensures posted.Some? && |message| <= 2000 ==> posted.value == message
    ensures posted.Some? && |message| > 2000 ==> posted.value == message[..1950] + Utf16(p.cutNote)
    ensures posted.Some? && |p.cutNote| <= 25 ==> |posted.value| <= DISCORD_LIMIT
  {
    if !webhookConfigured { return None; }
    var safeMessage := message;
    if |safeMessage| > DISCORD_LIMIT {
      safeMessage := safeMessage[..1950] + Utf16(p.cutNote);
    }
    posted := Some(safeMessage);
  }

  predicate Registered(source: string) {
    source == "dev.to" || source == "geeknews" || source == "stackoverflow"
  }

  lemma RemainingIsShort(p: Phrases, count: nat)
    requires count < 0x1_0000_0000 && |p.beforeCount| + |p.afterCount| <= 40
    ensures |Remaining(p, count)| <= 100
  {
    assert Power10(10) == 10000000000;
    DecimalLength(count, 10, 10000000000);
  }

  lemma RegisteredHeader(p: Phrases, source: string)
    requires |p.opening| + |p.arrival| <= 40 && Registered(source)
    ensures |Header(p, Utf16(source))| <= 120
  {
    assert |source| <= 13;
  }

  /** A header within the budget and a short rest keep the message under the limit. */
  lemma MessageFits(p: Phrases, header: Text, lines: nat -> Text, n: nat, listed: nat)
    requires LongestFitting(header, lines, n, listed) && |header| <= BUDGET
    requires n < 0x1_0000_0000 && |p.beforeCount| + |p.afterCount| <= 40
    ensures |Message(header, lines, count => Remaining(p, count), n, listed)| < DISCORD_LIMIT
  {
    if listed < n { RemainingIsShort(p, n - listed); }
    assert |Listing(header, lines, listed)| <= BUDGET;
  }

  /** For the three registered sources no user message, however many articles it is about, is ever cut. */
  lemma UserMessageIsNeverCut(source: string, baseUrl: Text, articles: seq<SavedArticle>, listed: nat)
    requires Registered(source) && listed <= |articles| < 0x1_0000_0000
    ensures var p := Korean();
            var header, lines := Header(p, Utf16(source)), Lines(p, baseUrl, articles);
            LongestFitting(header, lines, |articles|, listed) ==>
              |Message(header, lines, count => Remaining(p, count), |articles|, listed)| < DISCORD_LIMIT
  {
    var p := Korean();
    var header, lines := Header(p, Utf16(source)), Lines(p, baseUrl, articles);
    RegisteredHeader(p, source);
    if LongestFitting(header, lines, |articles|, listed) {
      MessageFits(p, header, lines, |articles|, listed);
    }
  }
}
