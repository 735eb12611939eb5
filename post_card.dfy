/** The post card's excerpt: the post's Markdown with its markup characters removed, trimmed,
    and cut to a maximum length with an ellipsis appended when it is longer. */
module PostCard {
  import opened Seqs
  import opened Text

  /** A character of the class `[#*_\-\[\]]`. */
  predicate IsMarkup(c: char)
  {
    c == '#' || c == '*' || c == '_' || c == '-' || c == '[' || c == ']'
  }

  predicate NotMarkup(c: char) { !IsMarkup(c) }

  /** `content.replace(/[#*_\-\[\]]/g, "").trim()`. */
  function PlainText(content: string): string
  {
    Trim(Filter(content, NotMarkup))
  }

  const DefaultMaxLength: nat := 150

  /** `getExcerpt(content, maxLength)`; `maxLength` is a whole number here. */
  function GetExcerpt(content: string, maxLength: nat): string
  {
    var plainText := PlainText(content);
    if |plainText| <= maxLength then plainText
    else Trim(plainText[..maxLength]) + "..."
  }

  /** Every character of the trimmed text comes from the text it was trimmed from. */
  lemma TrimChars(s: string)
    ensures forall c :: c in Trim(s) ==> c in s
  {
    var r := Trim(s);
    var i :| TrimmedAt(s, r, i);
    forall c | c in r ensures c in s {
      var k :| 0 <= k < |r| && r[k] == c;
      assert s[i + k] == r[k];
    }
  }

  /** The plain text holds no markup character. */
  lemma PlainTextChars(content: string)
    ensures forall c :: c in PlainText(content) ==> c in content && !IsMarkup(c)
  {
    var stripped := Filter(content, NotMarkup);
    TrimChars(stripped);
    forall c | c in PlainText(content) ensures c in content && !IsMarkup(c) {
      FilterMembers(content, NotMarkup, c);
    }
  }

  /** A text short enough is the excerpt itself. */
  lemma ShortExcerpt(content: string, maxLength: nat)
    requires |PlainText(content)| <= maxLength
    ensures GetExcerpt(content, maxLength) == PlainText(content)
  {
  }

  /** Trimming a cut of a text that starts with a non-space only drops white space from the cut's end. */
  lemma TrimCut(p: string, m: nat)
    requires m <= |p|
    requires p == [] || !IsWhitespace(p[0])
    ensures var body := Trim(p[..m]);
      && |body| <= m && body == p[..|body|]
      && (forall i :: |body| <= i < m ==> IsWhitespace(p[i]))
      && (body == [] || (!IsWhitespace(body[0]) && !IsWhitespace(body[|body| - 1])))
  {
    TrimStartKeeps(p[..m]);
    TrimEndCut(p, m);
  }

  lemma TrimEndCut(p: string, m: nat)
    requires m <= |p|
    ensures var body := TrimEnd(p[..m]);
      && |body| <= m && body == p[..|body|]
      && (forall i :: |body| <= i < m ==> IsWhitespace(p[i]))
  {
  }

  /** `r` is `p` cut after at most `m` characters and marked with `"..."`: the part before
      the `"..."` is a prefix of `p` no longer than `m`, only white space lies between it and the
      cut, and it has white space at neither end. */
  predicate IsCutOf(r: string, p: string, m: nat)
  {
    && |r| >= 3 && EndsWith(r, "...")
    && |r| <= m + 3 && m <= |p|
    && var body := r[..|r| - 3];
      && body == p[..|body|]
      && (forall i :: |body| <= i < m ==> IsWhitespace(p[i]))
      && (body == [] || (!IsWhitespace(body[0]) && !IsWhitespace(body[|body| - 1])))
  }

  lemma Ellipsis(p: string, m: nat)
    requires m <= |p|
    requires p == [] || !IsWhitespace(p[0])
    ensures IsCutOf(Trim(p[..m]) + "...", p, m)
  {
    TrimCut(p, m);
    Appended(Trim(p[..m]));
  }

  lemma Appended(body: string)
    ensures var r := body + "...";
      |r| == |body| + 3 && EndsWith(r, "...") && r[..|r| - 3] == body
  {
    var r := body + "...";
    assert r[..|r| - 3] == body;
    assert r[|r| - 3..] == "...";
  }

  /** A longer text is cut: the excerpt is a prefix of the plain text no longer than `maxLength`,
      with only white space between it and the cut and none at its ends, followed by `"..."`. */
  lemma LongExcerpt(content: string, maxLength: nat)
    requires |PlainText(content)| > maxLength
    ensures IsCutOf(GetExcerpt(content, maxLength), PlainText(content), maxLength)
  {
    var plainText := PlainText(content);
    assert GetExcerpt(content, maxLength) == Trim(plainText[..maxLength]) + "...";
    Ellipsis(plainText, maxLength);
  }

  /** `r` is the plain text `p` itself, or a prefix of it followed by `"..."`. */
  predicate IsExcerptOf(r: string, p: string)
  {
    r == p || (|r| >= 3 && |r| - 3 <= |p| && r == p[..|r| - 3] + "...")
  }

  /** Whatever the length, the excerpt is the plain text or a prefix of it followed by `"..."`,
      so the only text it adds is that `"..."`, and the plain text holds no markup character. */
  lemma ExcerptHasNoMarkup(content: string, maxLength: nat)
    ensures IsExcerptOf(GetExcerpt(content, maxLength), PlainText(content))
    ensures forall c :: c in PlainText(content) ==> !IsMarkup(c)
  {
    ExcerptShape(content, maxLength);
    PlainTextChars(content);
  }

  lemma ExcerptShape(content: string, maxLength: nat)
    ensures IsExcerptOf(GetExcerpt(content, maxLength), PlainText(content))
  {
    var plainText := PlainText(content);
    var r := GetExcerpt(content, maxLength);
    if |plainText| > maxLength {
      LongExcerpt(content, maxLength);
      CutShape(r, plainText, maxLength);
    } else {
      assert r == plainText;
    }
  }

  lemma CutShape(r: string, p: string, m: nat)
    requires IsCutOf(r, p, m)
    ensures IsExcerptOf(r, p)
  {
    var body := r[..|r| - 3];
    assert r == body + r[|r| - 3..];
  }
}
