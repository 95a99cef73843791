/**
 * Names under which an uploaded video is stored: the slug built from the
 * applicant's name (two variants, one per storage service), the file name
 * `slug_applicationId.mp4`, and the per-kind prefixes.
 */
module VideoNaming {
  import opened Wrappers
  import opened Text

  predicate IsSlugChar(c: char) { IsLowerAlpha(c) || IsDigit(c) || c == '-' }

  /** Only `a-z`, `0-9` and `-`. */
  predicate IsSlug(s: string) { forall i :: 0 <= i < |s| ==> IsSlugChar(s[i]) }

  predicate AllSpace(s: string) { forall i :: 0 <= i < |s| ==> IsSpace(s[i]) }

  /** How often `c` occurs in `s`. */
  function Count(s: string, c: char): nat { multiset(s)[c] }

  /**
   * `.replace(/[^a-z0-9\s-]/g, '')`: every letter, digit, hyphen and whitespace
   * character is kept, as often as it occurs, and nothing else.
   */
  function KeepSlugOrSpace(s: string): (r: string)
    ensures |r| <= |s|
    ensures forall i :: 0 <= i < |r| ==> IsSlugChar(r[i]) || IsSpace(r[i])
    ensures forall c {:trigger Count(r, c)} :: Count(r, c) == if IsSlugChar(c) || IsSpace(c) then Count(s, c) else 0
  {
    if s == [] then []
    else
      var rest := KeepSlugOrSpace(s[1..]);
      CountCons(s[0], s[1..]);
      CountCons(s[0], rest);
      assert s == [s[0]] + s[1..];
      if IsSlugChar(s[0]) || IsSpace(s[0]) then [s[0]] + rest
      else rest
  }

  /**
   * `.replace(/[^a-z0-9-]/g, '')`: every letter, digit and hyphen is kept, as
   * often as it occurs, and nothing else.
   */
  function KeepSlugChars(s: string): (r: string)
    ensures |r| <= |s|
    ensures IsSlug(r)
    ensures forall c {:trigger Count(r, c)} :: Count(r, c) == if IsSlugChar(c) then Count(s, c) else 0
  {
    if s == [] then []
    else
      var rest := KeepSlugChars(s[1..]);
      CountCons(s[0], s[1..]);
      CountCons(s[0], rest);
      assert s == [s[0]] + s[1..];
      if IsSlugChar(s[0]) then [s[0]] + rest
      else rest
  }

  /** One more character at the front counts once more for that character only. */
  lemma CountCons(x: char, t: string)
    ensures forall c :: Count([x] + t, c) == (if c == x then 1 else 0) + Count(t, c)
  {
    assert multiset([x] + t) == multiset{x} + multiset(t);
  }

  /** The filters keep the characters in order: filtering a concatenation filters each part. */
  lemma KeepConcat(a: string, b: string)
    ensures KeepSlugOrSpace(a + b) == KeepSlugOrSpace(a) + KeepSlugOrSpace(b)
    ensures KeepSlugChars(a + b) == KeepSlugChars(a) + KeepSlugChars(b)
  {
    KeepSlugOrSpaceConcat(a, b);
    KeepSlugCharsConcat(a, b);
  }

  lemma {:induction false} KeepSlugOrSpaceConcat(a: string, b: string)
    ensures KeepSlugOrSpace(a + b) == KeepSlugOrSpace(a) + KeepSlugOrSpace(b)
  {
    if a == [] {
      assert a + b == b;
    } else {
      var x, t := a[0], a[1..];
      assert a == [x] + t && a + b == [x] + (t + b);
      KeepSlugOrSpaceConcat(t, b);
      KeepSlugOrSpaceCons(x, t);
      KeepSlugOrSpaceCons(x, t + b);
    }
  }

  lemma KeepSlugOrSpaceCons(x: char, t: string)
    ensures KeepSlugOrSpace([x] + t) == (if IsSlugChar(x) || IsSpace(x) then [x] else []) + KeepSlugOrSpace(t)
  {
    var s := [x] + t;
    assert s[0] == x && s[1..] == t;
  }

  lemma {:induction false} KeepSlugCharsConcat(a: string, b: string)
    ensures KeepSlugChars(a + b) == KeepSlugChars(a) + KeepSlugChars(b)
  {
    if a == [] {
      assert a + b == b;
    } else {
      var x, t := a[0], a[1..];
      assert a == [x] + t && a + b == [x] + (t + b);
      KeepSlugCharsConcat(t, b);
      KeepSlugCharsCons(x, t);
      KeepSlugCharsCons(x, t + b);
    }
  }

  lemma KeepSlugCharsCons(x: char, t: string)
    ensures KeepSlugChars([x] + t) == (if IsSlugChar(x) then [x] else []) + KeepSlugChars(t)
  {
    var s := [x] + t;
    assert s[0] == x && s[1..] == t;
  }

  /** Drops the leading `\s` characters, and only those. */
  function DropLeadingSpace(s: string): (r: string)
    ensures |r| <= |s| && r == s[|s| - |r|..]
    ensures AllSpace(s[..|s| - |r|])
    ensures r == [] || !IsSpace(r[0])
  {
    if s != [] && IsSpace(s[0]) then
      var r := DropLeadingSpace(s[1..]);
      assert s[1..][..|s| - 1 - |r|] == s[1..|s| - |r|];
      r
    else s
  }

  /** Drops the trailing `\s` characters, and only those. */
  function DropTrailingSpace(s: string): (r: string)
    ensures |r| <= |s| && r == s[..|r|]
    ensures AllSpace(s[|r|..])
    ensures r == [] || !IsSpace(r[|r| - 1])
  {
    if s != [] && IsSpace(s[|s| - 1]) then
      var r := DropTrailingSpace(s[..|s| - 1]);
      assert s[..|s| - 1][|r|..] == s[|r|..|s| - 1];
      assert s[|r|..] == s[|r|..|s| - 1] + [s[|s| - 1]];
      r
    else s
  }

  /**
   * `s.trim()`: the text between the leading and the trailing whitespace, which
   * neither starts nor ends with whitespace (`TrimMiddle` places it in the input).
   */
  function Trim(s: string): (r: string)
    ensures |r| <= |s|
    ensures r == [] || (!IsSpace(r[0]) && !IsSpace(r[|r| - 1]))
  {
    DropTrailingSpace(DropLeadingSpace(s))
  }

  /** The trimmed text is a middle part of the input with only whitespace before and after it. */
  lemma TrimMiddle(s: string)
    ensures var r := Trim(s);
      exists i :: 0 <= i <= |s| - |r| && s[i..i + |r|] == r && AllSpace(s[..i]) && AllSpace(s[i + |r|..])
  {
    var d := DropLeadingSpace(s);
    var r := DropTrailingSpace(d);
    assert Trim(s) == r;
    TrimWitness(s, d, r);
  }

  lemma TrimWitness(s: string, d: string, r: string)
    requires |d| <= |s| && d == s[|s| - |d|..] && AllSpace(s[..|s| - |d|])
    requires |r| <= |d| && r == d[..|r|] && AllSpace(d[|r|..])
    ensures exists i :: 0 <= i <= |s| - |r| && s[i..i + |r|] == r && AllSpace(s[..i]) && AllSpace(s[i + |r|..])
  {
    var i := |s| - |d|;
    assert s[i..i + |r|] == s[i..][..|r|];
    assert s[i + |r|..] == s[i..][|r|..];
    assert 0 <= i <= |s| - |r| && s[i..i + |r|] == r && AllSpace(s[..i]) && AllSpace(s[i + |r|..]);
  }

  /** Trimming keeps every character that is not whitespace, as often as it occurs. */
  lemma TrimKeepsNonSpace(s: string)
    ensures forall c {:trigger Count(Trim(s), c)} :: !IsSpace(c) ==> Count(Trim(s), c) == Count(s, c)
  {
    var d := DropLeadingSpace(s);
    var r := DropTrailingSpace(d);
    assert Trim(s) == r;
    assert s == s[..|s| - |d|] + d;
    assert d == r + d[|r|..];
    SpacesAddNothing(s[..|s| - |d|], d, s);
    SpacesAddNothing(d[|r|..], r, d);
    forall c | !IsSpace(c)
      ensures Count(Trim(s), c) == Count(s, c)
    {
      assert Count(r, c) == Count(d, c) == Count(s, c);
    }
  }

  /** Whitespace next to a text adds nothing but whitespace to its character counts. */
  lemma SpacesAddNothing(w: string, t: string, s: string)
    requires AllSpace(w) && (s == w + t || s == t + w)
    ensures forall c :: !IsSpace(c) ==> Count(s, c) == Count(t, c)
  {
    forall c | !IsSpace(c)
      ensures Count(s, c) == Count(t, c)
    {
      AllSpaceLacks(w, c);
    }
  }

  lemma AllSpaceLacks(w: string, c: char)
    requires AllSpace(w) && !IsSpace(c)
    ensures Count(w, c) == 0
  {
    assert forall i :: 0 <= i < |w| ==> w[i] != c;
    assert c !in w;
  }

  /**
   * `.replace(/\s+/g, '-')`: every maximal run of `\s` becomes one hyphen, and
   * every other character is kept (see `HyphenateKeepsOthers` and `HyphenateRun`).
   */
  function HyphenateSpaces(s: string): (r: string)
    ensures |r| <= |s|
    ensures forall i :: 0 <= i < |r| ==> !IsSpace(r[i]) && (r[i] == '-' || r[i] in s)
    decreases |s|
  {
    if s == [] then []
    else if IsSpace(s[0]) then "-" + HyphenateSpaces(DropLeadingSpace(s[1..]))
    else [s[0]] + HyphenateSpaces(s[1..])
  }

  /** The hyphen replacement keeps every character that is neither whitespace nor a hyphen, as often as it occurs. */
  lemma {:induction false} HyphenateKeepsOthers(s: string)
    ensures forall c {:trigger Count(HyphenateSpaces(s), c)} :: !IsSpace(c) && c != '-' ==>
      Count(HyphenateSpaces(s), c) == Count(s, c)
    decreases |s|
  {
    if s != [] {
      CountCons(s[0], s[1..]);
      assert s == [s[0]] + s[1..];
      if IsSpace(s[0]) {
        var d := DropLeadingSpace(s[1..]);
        var w := s[1..][..|s| - 1 - |d|];
        assert s[1..] == w + d;
        SpacesAddNothing(w, d, s[1..]);
        HyphenateKeepsOthers(d);
        CountCons('-', HyphenateSpaces(d));
      } else {
        HyphenateKeepsOthers(s[1..]);
        CountCons(s[0], HyphenateSpaces(s[1..]));
      }
    }
  }

  /** A whole run of whitespace before a non-space character, or the end, becomes exactly one hyphen. */
  lemma HyphenateRun(w: string, s: string)
    requires w != [] && AllSpace(w) && (s == [] || !IsSpace(s[0]))
    ensures HyphenateSpaces(w + s) == "-" + HyphenateSpaces(s)
  {
    assert (w + s)[0] == w[0] && (w + s)[1..] == w[1..] + s;
    DropLeadingSpacePrefix(w[1..], s);
  }

  /** `s.substring(0, n)` */
  function Prefix(s: string, n: nat): (r: string)
    ensures |r| <= n && |r| <= |s| && r == s[..|r|]
    ensures |s| <= n ==> r == s
  {
    if |s| <= n then s else s[..n]
  }

  const R2SlugMax: nat := 50

  /**
   * The slug of `generateVideoFileName` in the object-store service: lower-case,
   * drop everything but letters, digits, whitespace and hyphens, turn each run of
   * whitespace into one hyphen, keep the first 50 characters. There is no trim.
   */
  function R2Slug(name: string): (r: string)
    ensures IsSlug(r)
    ensures |r| <= R2SlugMax
  {
    Prefix(HyphenateSpaces(KeepSlugOrSpace(Lower(name))), R2SlugMax)
  }

  /**
   * The slug of `generateVideoFileName` in the Drive service: lower-case, trim,
   * turn each run of whitespace into one hyphen, drop everything but letters,
   * digits and hyphens. There is no truncation.
   */
  function DriveSlug(name: string): (r: string)
    ensures IsSlug(r)
    ensures |r| <= |name|
  {
    KeepSlugChars(HyphenateSpaces(Trim(Lower(name))))
  }

  /** `${slug}_${applicationId}.mp4` */
  function VideoFileName(slug: string, applicationId: string): string {
    slug + "_" + applicationId + ".mp4"
  }

  function R2VideoFileName(name: string, applicationId: string): string {
    VideoFileName(R2Slug(name), applicationId)
  }

  function DriveVideoFileName(name: string, applicationId: string): string {
    VideoFileName(DriveSlug(name), applicationId)
  }

  // ---------------------------------------------------------------------------
  // Idempotence: a slug is left unchanged by cleaning it again.

  lemma LowerOfSlug(s: string)
    requires IsSlug(s)
    ensures Lower(s) == s
  {
  }

  lemma {:induction false} KeepSlugOrSpaceOfSlug(s: string)
    requires IsSlug(s)
    ensures KeepSlugOrSpace(s) == s
  {
    if s != [] {
      KeepSlugOrSpaceOfSlug(s[1..]);
    }
  }

  lemma {:induction false} KeepSlugCharsOfSlug(s: string)
    requires IsSlug(s)
    ensures KeepSlugChars(s) == s
  {
    if s != [] {
      KeepSlugCharsOfSlug(s[1..]);
    }
  }

  lemma {:induction false} HyphenateSpacesNoSpace(s: string)
    requires forall i :: 0 <= i < |s| ==> !IsSpace(s[i])
    ensures HyphenateSpaces(s) == s
  {
    if s != [] {
      HyphenateSpacesNoSpace(s[1..]);
    }
  }

  lemma SlugHasNoSpace(s: string)
    requires IsSlug(s)
    ensures forall i :: 0 <= i < |s| ==> !IsSpace(s[i])
  {
  }

  /** Cleaning an R2 slug again returns it unchanged. */
  lemma R2SlugIdempotent(name: string)
    ensures R2Slug(R2Slug(name)) == R2Slug(name)
  {
    R2SlugOfSlug(R2Slug(name));
  }

  /** Cleaning a Drive slug again returns it unchanged. */
  lemma DriveSlugIdempotent(name: string)
    ensures DriveSlug(DriveSlug(name)) == DriveSlug(name)
  {
    DriveSlugOfSlug(DriveSlug(name));
  }

  /**
   * The letters and digits of the object-store slug are those of the lower-cased
   * name: never more of any, and all of them when the name has at most 50 characters.
   */
  lemma R2SlugKeepsLettersAndDigits(name: string, c: char)
    requires IsLowerAlpha(c) || IsDigit(c)
    ensures Count(R2Slug(name), c) <= Count(Lower(name), c)
    ensures |name| <= R2SlugMax ==> Count(R2Slug(name), c) == Count(Lower(name), c)
  {
    var k := KeepSlugOrSpace(Lower(name));
    var h := HyphenateSpaces(k);
    var r := R2Slug(name);
    HyphenateKeepsOthers(k);
    assert !IsSpace(c) && c != '-' && IsSlugChar(c);
    assert Count(h, c) == Count(k, c) == Count(Lower(name), c);
    assert h == r + h[|r|..];
    assert multiset(h) == multiset(r) + multiset(h[|r|..]);
  }

  /** Every letter and digit of the lower-cased name survives in the Drive slug, as often as it occurs. */
  lemma DriveSlugKeepsLettersAndDigits(name: string, c: char)
    requires IsLowerAlpha(c) || IsDigit(c)
    ensures Count(DriveSlug(name), c) == Count(Lower(name), c)
  {
    var t := Trim(Lower(name));
    var h := HyphenateSpaces(t);
    TrimKeepsNonSpace(Lower(name));
    HyphenateKeepsOthers(t);
    assert !IsSpace(c) && c != '-' && IsSlugChar(c);
    assert Count(KeepSlugChars(h), c) == Count(h, c) == Count(t, c);
  }

  /** A slug of at most 50 characters is its own object-store slug. */
  lemma R2SlugOfSlug(s: string)
    requires IsSlug(s) && |s| <= R2SlugMax
    ensures R2Slug(s) == s
  {
    LowerOfSlug(s);
    KeepSlugOrSpaceOfSlug(s);
    SlugHasNoSpace(s);
    HyphenateSpacesNoSpace(s);
  }

  /** A slug is its own Drive slug. */
  lemma DriveSlugOfSlug(s: string)
    requires IsSlug(s)
    ensures DriveSlug(s) == s
  {
    LowerOfSlug(s);
    SlugHasNoSpace(s);
    assert DropLeadingSpace(s) == s;
    assert DropTrailingSpace(s) == s;
    HyphenateSpacesNoSpace(s);
    KeepSlugCharsOfSlug(s);
  }

  // ---------------------------------------------------------------------------
  // Trim runs before whitespace becomes hyphens in the Drive variant.

  lemma LowerConcat(a: string, b: string)
    ensures Lower(a + b) == Lower(a) + Lower(b)
  {
  }

  lemma LowerOfSpaces(w: string)
    requires AllSpace(w)
    ensures Lower(w) == w
  {
  }

  lemma {:induction false} DropLeadingSpacePrefix(w: string, s: string)
    requires AllSpace(w)
    ensures DropLeadingSpace(w + s) == DropLeadingSpace(s)
    decreases |w|
  {
    if w != [] {
      assert (w + s)[1..] == w[1..] + s;
      DropLeadingSpacePrefix(w[1..], s);
    } else {
      assert w + s == s;
    }
  }

  lemma {:induction false} DropTrailingSpaceSuffix(s: string, w: string)
    requires AllSpace(w)
    ensures DropTrailingSpace(s + w) == DropTrailingSpace(s)
    decreases |w|
  {
    if w != [] {
      assert (s + w)[..|s + w| - 1] == s + w[..|w| - 1];
      DropTrailingSpaceSuffix(s, w[..|w| - 1]);
    } else {
      assert s + w == s;
    }
  }

  lemma {:induction false} DropLeadingSpaceSuffix(s: string, w: string)
    requires AllSpace(w)
    ensures DropLeadingSpace(s + w) == DropLeadingSpace(s) + w || (DropLeadingSpace(s) == [] && DropLeadingSpace(s + w) == [])
    decreases |s|
  {
    if s == [] {
      assert s + w == w;
      DropLeadingSpacePrefix(w, []);
      assert w + [] == w;
    } else if IsSpace(s[0]) {
      assert (s + w)[1..] == s[1..] + w;
      DropLeadingSpaceSuffix(s[1..], w);
    } else {
      assert (s + w)[0] == s[0];
    }
  }

  lemma TrimDropsOuterSpace(w1: string, s: string, w2: string)
    requires AllSpace(w1) && AllSpace(w2)
    ensures Trim(w1 + s + w2) == Trim(s)
  {
    assert w1 + s + w2 == w1 + (s + w2);
    DropLeadingSpacePrefix(w1, s + w2);
    DropLeadingSpaceSuffix(s, w2);
    if DropLeadingSpace(s + w2) == DropLeadingSpace(s) + w2 {
      DropTrailingSpaceSuffix(DropLeadingSpace(s), w2);
    }
  }

  /**
   * Leading and trailing whitespace does not reach the Drive slug: `trim` runs
   * before whitespace is turned into hyphens.
   */
  lemma DriveSlugIgnoresOuterSpace(w1: string, name: string, w2: string)
    requires AllSpace(w1) && AllSpace(w2)
    ensures DriveSlug(w1 + name + w2) == DriveSlug(name)
  {
    LowerConcat(w1 + name, w2);
    LowerConcat(w1, name);
    LowerOfSpaces(w1);
    LowerOfSpaces(w2);
    TrimDropsOuterSpace(w1, Lower(name), w2);
  }

  /** The R2 variant has no trim: leading whitespace becomes a hyphen. */
  lemma R2SlugKeepsLeadingSpace(name: string)
    requires name != [] && IsSlugChar(name[0])
    ensures R2Slug(" " + name)[0] == '-'
  {
    var l := Lower(" " + name);
    assert l[0] == ' ';
    var k := KeepSlugOrSpace(l);
    assert k == [' '] + KeepSlugOrSpace(l[1..]);
    assert HyphenateSpaces(k)[0] == '-';
  }

  // ---------------------------------------------------------------------------
  // The application id can be read back from the file name.

  function IndexOf(s: string, c: char): (r: Option<nat>)
    ensures r.Some? ==> r.value < |s| && s[r.value] == c && c !in s[..r.value]
    ensures r.None? ==> c !in s
  {
    if s == [] then None
    else if s[0] == c then Some(0)
    else match IndexOf(s[1..], c)
      case None => None
      case Some(i) => Some(i + 1)
  }

  /** Splits `slug_applicationId.mp4` at its first underscore. */
  function SplitVideoFileName(f: string): Option<(string, string)> {
    if !EndsWith(f, ".mp4") then None
    else match IndexOf(f, '_')
      case None => None
      case Some(i) => if i + 1 <= |f| - 4 then Some((f[..i], f[i + 1..|f| - 4])) else None
  }

  lemma {:induction false} IndexOfSlugThenUnderscore(slug: string, rest: string)
    requires IsSlug(slug)
    ensures IndexOf(slug + "_" + rest, '_') == Some(|slug|)
    decreases |slug|
  {
    if slug == [] {
      assert (slug + "_" + rest)[0] == '_';
    } else {
      assert (slug + "_" + rest)[1..] == slug[1..] + "_" + rest;
      IndexOfSlugThenUnderscore(slug[1..], rest);
    }
  }

  /** A video file name splits back into the slug and the application id it was made from. */
  lemma VideoFileNameSplits(slug: string, applicationId: string)
    requires IsSlug(slug)
    ensures SplitVideoFileName(VideoFileName(slug, applicationId)) == Some((slug, applicationId))
  {
    var f := VideoFileName(slug, applicationId);
    assert f == slug + "_" + (applicationId + ".mp4");
    IndexOfSlugThenUnderscore(slug, applicationId + ".mp4");
    assert f[|f| - 4..] == ".mp4";
    assert f[..|slug|] == slug;
    assert f[|slug| + 1..|f| - 4] == applicationId;
  }

  /** Both services' file names end in `.mp4` and give back slug and id. */
  lemma GeneratedNamesSplit(name: string, applicationId: string)
    ensures SplitVideoFileName(R2VideoFileName(name, applicationId)) == Some((R2Slug(name), applicationId))
    ensures SplitVideoFileName(DriveVideoFileName(name, applicationId)) == Some((DriveSlug(name), applicationId))
  {
    VideoFileNameSplits(R2Slug(name), applicationId);
    VideoFileNameSplits(DriveSlug(name), applicationId);
  }

  // ---------------------------------------------------------------------------
  // Per-kind prefixes.

  /** The object-store folder: `founders/` for `'founder'`, `seekers/` for anything else. */
  function R2FolderPrefix(folderType: string): (p: string)
    ensures p == "founders/" <==> folderType == "founder"
    ensures p == "seekers/" <==> folderType != "founder"
  {
    if folderType == "founder" then "founders/" else "seekers/"
  }

  function R2Key(folderType: string, fileName: string): string {
    R2FolderPrefix(folderType) + fileName
  }

  /** The key lies under `founders/` exactly for founders; everything else goes under `seekers/`. */
  lemma R2KeyFolder(folderType: string, fileName: string)
    ensures StartsWith(R2Key(folderType, fileName), "founders/") <==> folderType == "founder"
    ensures StartsWith(R2Key(folderType, fileName), "seekers/") <==> folderType != "founder"
    ensures R2Key(folderType, fileName)[|R2FolderPrefix(folderType)|..] == fileName
  {
    var k := R2Key(folderType, fileName);
    if folderType == "founder" {
      assert k[..8] == "founders";
      assert k[..8] != "seekers/";
    } else {
      assert k[..8] == "seekers/";
      if |k| >= 9 {
        assert k[..9][0] == 's';
      }
    }
  }

  /** The Drive file name: `FOUNDER_` for `'founder'`, `SEEKER_` for anything else. */
  function DriveFilePrefix(folderType: string): (p: string)
    ensures p == "FOUNDER_" <==> folderType == "founder"
    ensures p == "SEEKER_" <==> folderType != "founder"
  {
    if folderType == "founder" then "FOUNDER_" else "SEEKER_"
  }

  function DriveFileName(folderType: string, fileName: string): string {
    DriveFilePrefix(folderType) + fileName
  }
}
