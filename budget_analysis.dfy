/** Heading anchors of the budget-analysis article: `slugify` turns a heading's text into the `id`
    of the heading and the `#` link that points at it. */
module BudgetAnalysis {
  import opened Seqs
  import opened Text

  /** A character that `[^a-z0-9]` does not match. */
  predicate IsSlugChar(c: char) { IsLower(c) || IsDigit(c) }

  predicate IsAsciiAlnum(c: char) { IsUpper(c) || IsLower(c) || IsDigit(c) }

  predicate NotHyphen(c: char) { c != '-' }

  /** What `slugify` produces: letters, digits and single hyphens, with a hyphen at neither end. */
  predicate IsSlug(t: string)
  {
    && (forall i :: 0 <= i < |t| ==> IsSlugChar(t[i]) || t[i] == '-')
    && (forall i :: 0 <= i < |t| - 1 ==> !(t[i] == '-' && t[i + 1] == '-'))
    && (t == [] || (t[0] != '-' && t[|t| - 1] != '-'))
  }

  /** The rest of `s` once the run of characters `[^a-z0-9]+` matches at its start is skipped. */
  function DropRun(s: string): (r: string)
    ensures |r| <= |s| && r == s[|s| - |r|..]
    ensures r == [] || IsSlugChar(r[0])
    ensures forall i :: 0 <= i < |s| - |r| ==> !IsSlugChar(s[i])
    decreases |s|
  {
    if s == [] || IsSlugChar(s[0]) then s else DropRun(s[1..])
  }

  /** `replace(/[^a-z0-9]+/g, "-")`: every maximal run of other characters becomes one hyphen. */
  function Collapse(s: string): (r: string)
    ensures forall i :: 0 <= i < |r| ==> IsSlugChar(r[i]) || r[i] == '-'
    ensures forall i :: 0 <= i < |r| - 1 && r[i] == '-' ==> IsSlugChar(r[i + 1])
    ensures s == [] <==> r == []
    ensures s != [] && IsSlugChar(s[0]) ==> r[0] == s[0]
    decreases |s|
  {
    if s == [] then []
    else if IsSlugChar(s[0]) then [s[0]] + Collapse(s[1..])
    else "-" + Collapse(DropRun(s))
  }

  /** `replace(/(^-|-$)/g, "")`: one hyphen is dropped from each end. */
  function TrimHyphen(s: string): string
  {
    var a := if |s| > 0 && s[0] == '-' then s[1..] else s;
    if |a| > 0 && a[|a| - 1] == '-' then a[..|a| - 1] else a
  }

  /** `slugify(text)`, lower-casing the ASCII letters only. */
  function Slugify(text: string): string
  {
    TrimHyphen(Collapse(Lower(text)))
  }

  /** The output holds only lower-case letters, digits and hyphens, never two hyphens in a row and
      no hyphen at either end. */
  lemma SlugifyIsSlug(text: string)
    ensures IsSlug(Slugify(text))
  {
    TrimHyphenSlug(Collapse(Lower(text)));
  }

  /** Dropping an end hyphen from what `Collapse` produces leaves a slug. */
  lemma TrimHyphenSlug(c: string)
    requires forall i :: 0 <= i < |c| ==> IsSlugChar(c[i]) || c[i] == '-'
    requires forall i :: 0 <= i < |c| - 1 && c[i] == '-' ==> IsSlugChar(c[i + 1])
    ensures IsSlug(TrimHyphen(c))
  {
    var a := if |c| > 0 && c[0] == '-' then c[1..] else c;
    assert forall i :: 0 <= i < |a| ==> IsSlugChar(a[i]) || a[i] == '-';
    assert forall i :: 0 <= i < |a| - 1 && a[i] == '-' ==> IsSlugChar(a[i + 1]);
    assert a == [] || a[0] != '-';
    var b := TrimHyphen(c);
    if |a| > 0 && a[|a| - 1] == '-' {
      assert b == a[..|a| - 1];
      assert b == [] || b[|b| - 1] == a[|a| - 2];
    } else {
      assert b == a;
    }
  }

  lemma {:induction false} DropRunFilter(s: string)
    ensures Filter(DropRun(s), IsSlugChar) == Filter(s, IsSlugChar)
    decreases |s|
  {
    if s != [] && !IsSlugChar(s[0]) {
      DropRunFilter(s[1..]);
    }
  }

  lemma {:induction false} CollapseFilter(s: string)
    ensures Filter(Collapse(s), IsSlugChar) == Filter(s, IsSlugChar)
    decreases |s|
  {
    if s != [] {
      if IsSlugChar(s[0]) {
        CollapseFilter(s[1..]);
        assert ([s[0]] + Collapse(s[1..]))[1..] == Collapse(s[1..]);
      } else {
        CollapseFilter(DropRun(s));
        DropRunFilter(s);
        assert ("-" + Collapse(DropRun(s)))[1..] == Collapse(DropRun(s));
      }
    }
  }

  lemma TrimHyphenFilter(s: string)
    ensures Filter(TrimHyphen(s), IsSlugChar) == Filter(s, IsSlugChar)
  {
    var a := if |s| > 0 && s[0] == '-' then s[1..] else s;
    assert Filter(a, IsSlugChar) == Filter(s, IsSlugChar);
    if |a| > 0 && a[|a| - 1] == '-' {
      assert a == a[..|a| - 1] + [a[|a| - 1]];
      FilterSnoc(a[..|a| - 1], a[|a| - 1], IsSlugChar);
    }
  }

  /** The letters and digits of `Lower(s)` are the ASCII letters and digits of `s`, lower-cased. */
  lemma {:induction false} LowerFilter(s: string)
    ensures Filter(Lower(s), IsSlugChar) == Lower(Filter(s, IsAsciiAlnum))
    decreases |s|
  {
    if s != [] {
      LowerFilter(s[1..]);
      assert Lower(s)[1..] == Lower(s[1..]);
      if IsAsciiAlnum(s[0]) {
        assert Lower([s[0]] + Filter(s[1..], IsAsciiAlnum)) == [LowerChar(s[0])] + Lower(Filter(s[1..], IsAsciiAlnum));
      }
    }
  }

  /** Deleting the hyphens from the output leaves the input's ASCII letters and digits, lower-cased,
      in their original order. */
  lemma SlugifyKeepsLettersAndDigits(text: string)
    ensures Filter(Slugify(text), NotHyphen) == Lower(Filter(text, IsAsciiAlnum))
  {
    var c := Collapse(Lower(text));
    SlugifyIsSlug(text);
    FilterCongruent(Slugify(text), NotHyphen, IsSlugChar);
    TrimHyphenFilter(c);
    CollapseFilter(Lower(text));
    LowerFilter(text);
  }

  /** A slug is left as it is. */
  lemma {:induction false} CollapseSlug(t: string)
    requires forall i :: 0 <= i < |t| ==> IsSlugChar(t[i]) || t[i] == '-'
    requires forall i :: 0 <= i < |t| - 1 && t[i] == '-' ==> IsSlugChar(t[i + 1])
    ensures Collapse(t) == t
    decreases |t|
  {
    if t != [] {
      if !IsSlugChar(t[0]) {
        assert DropRun(t) == DropRun(t[1..]);
        if |t| > 1 {
          assert IsSlugChar(t[1]);
        }
        assert DropRun(t[1..]) == t[1..];
      }
      CollapseSlug(t[1..]);
    }
  }

  lemma LowerKeeps(t: string)
    requires forall i :: 0 <= i < |t| ==> IsSlugChar(t[i]) || t[i] == '-'
    ensures Lower(t) == t
  {
    assert forall i :: 0 <= i < |t| ==> Lower(t)[i] == t[i];
  }

  lemma TrimHyphenKeeps(t: string)
    requires t == [] || (t[0] != '-' && t[|t| - 1] != '-')
    ensures TrimHyphen(t) == t
  {
  }

  lemma SlugifySlug(t: string)
    requires IsSlug(t)
    ensures Slugify(t) == t
  {
    LowerKeeps(t);
    assert forall i :: 0 <= i < |t| - 1 && t[i] == '-' ==> IsSlugChar(t[i + 1]);
    CollapseSlug(t);
    TrimHyphenKeeps(t);
  }

  /** Slugifying twice gives what slugifying once does. */
  lemma SlugifyIdempotent(text: string)
    ensures Slugify(Slugify(text)) == Slugify(text)
  {
    SlugifyIsSlug(text);
    SlugifySlug(Slugify(text));
  }

  /** The output is empty exactly when the input holds no ASCII letter or digit. */
  lemma SlugifyEmpty(text: string)
    ensures Slugify(text) == [] <==> forall i :: 0 <= i < |text| ==> !IsAsciiAlnum(text[i])
  {
    var r := Slugify(text);
    SlugifyKeepsLettersAndDigits(text);
    SlugifyIsSlug(text);
    if exists i :: 0 <= i < |text| && IsAsciiAlnum(text[i]) {
      var i :| 0 <= i < |text| && IsAsciiAlnum(text[i]);
      FilterMembers(text, IsAsciiAlnum, text[i]);
      assert Filter(r, NotHyphen) != [];
    } else {
      FilterNone(text, IsAsciiAlnum);
    }
  }

  /** The `id` of a rendered heading and the `href` of the link inside it. */
  datatype Anchor = Anchor(id: string, href: string)

  /** What `createHeading` renders for a heading's text: its slug as `id` and a link to `#id`,
      whose fragment names the heading again when slugified. */
  function HeadingAnchor(text: string): (a: Anchor)
    ensures IsSlug(a.id)
    ensures a.href == "#" + a.id
    ensures Slugify(a.href[1..]) == a.id
    ensures a.id == Slugify(text)
  {
    SlugifyIsSlug(text);
    SlugifyIdempotent(text);
    var id := Slugify(text);
    assert ("#" + id)[1..] == id;
    Anchor(id, "#" + id)
  }
}
