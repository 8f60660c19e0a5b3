/** Printing a page's address in a language, and reading the language back from an address. */
module LocalizedPaths {
  const LOCALES := ["ru", "es", "pt", "zh", "fr", "id"]
  const ENGLISH := "en"

  datatype LocalizedPathname = LocalizedPathname(locale: string, path: string)

  predicate IsLocale(value: string) {
    value in LOCALES
  }

  predicate IsLanguage(value: string) {
    IsLocale(value) || value == ENGLISH
  }

  /** String.split("/"). */
  function Split(s: string): (r: seq<string>)
    ensures r != []
  {
    if s == "" then [""]
    else
      var rest := Split(s[1..]);
      if s[0] == '/' then [""] + rest else [[s[0]] + rest[0]] + rest[1..]
  }

  /** Array.join("/"). */
  function Join(parts: seq<string>): string {
    if parts == [] then "" else if |parts| == 1 then parts[0] else parts[0] + "/" + Join(parts[1..])
  }

  /** filter(Boolean) keeps the parts that are not empty. */
  function NonEmpty(parts: seq<string>): seq<string> {
    if parts == [] then [] else (if parts[0] == "" then [] else [parts[0]]) + NonEmpty(parts[1..])
  }

  function Segments(pathname: string): seq<string> {
    NonEmpty(Split(pathname))
  }

  function GetLocalizedHref(locale: string, path: string): string {
    if locale == ENGLISH then Suffix(path) + "/" else "/" + locale + Suffix(path) + "/"
  }

  function Suffix(path: string): string {
    if path == "" then "" else "/" + path
  }

  function SplitLocaleFromPathname(pathname: string): LocalizedPathname {
    var segments := Segments(pathname);
    if |segments| > 0 && IsLocale(segments[0]) then LocalizedPathname(segments[0], Join(segments[1..]))
    else LocalizedPathname(ENGLISH, Join(segments))
  }

  // ----- strings -----

  lemma {:induction false} SplitAtASlash(s: string, i: nat)
    requires i < |s| && s[i] == '/'
    ensures Split(s) == Split(s[..i]) + Split(s[i + 1..])
    decreases i
  {
    if i > 0 {
      SplitAtASlash(s[1..], i - 1);
      assert s[1..][i..] == s[i + 1..] && s[1..][..i - 1] == s[..i][1..];
      PutInFront(s[0], Split(s[..i][1..]), Split(s[i + 1..]));
    }
  }

  // Putting a character in front of the first part commutes with adding parts behind.
  lemma PutInFront(c: char, front: seq<string>, back: seq<string>)
    requires front != []
    ensures [[c] + (front + back)[0]] + (front + back)[1..] == ([[c] + front[0]] + front[1..]) + back
    ensures [""] + (front + back) == ([""] + front) + back
  {
    assert (front + back)[0] == front[0] && (front + back)[1..] == front[1..] + back;
  }

  lemma Regroup(a: seq<string>, b: seq<string>, c: seq<string>)
    ensures a + (b + c) == (a + b) + c
  {
  }

  lemma {:induction false} NonEmptyOfBoth(a: seq<string>, b: seq<string>)
    ensures NonEmpty(a + b) == NonEmpty(a) + NonEmpty(b)
  {
    if a == [] {
      assert a + b == b;
    } else {
      var s := a + b;
      assert s[0] == a[0] && s[1..] == a[1..] + b;
      NonEmptyOfBoth(a[1..], b);
      Regroup(if a[0] == "" then [] else [a[0]], NonEmpty(a[1..]), NonEmpty(b));
    }
  }

  lemma SegmentsOfBoth(a: string, b: string)
    ensures Segments(a + "/" + b) == Segments(a) + Segments(b)
  {
    var s := a + "/" + b;
    assert s[..|a|] == a && s[|a| + 1..] == b && s[|a|] == '/';
    SplitAtASlash(s, |a|);
    NonEmptyOfBoth(Split(a), Split(b));
  }

  lemma {:induction false} SplitOfAPart(part: string)
    requires '/' !in part
    ensures Split(part) == [part]
  {
    if part != "" {
      SplitOfAPart(part[1..]);
      assert part[0] in part;
      assert part == [part[0]] + part[1..];
    }
  }

  predicate AreSegments(parts: seq<string>) {
    forall part <- parts :: part != "" && '/' !in part
  }

  lemma {:induction false} NonEmptyKeeps(parts: seq<string>, part: string)
    ensures part in NonEmpty(parts) <==> part in parts && part != ""
  {
    if parts != [] {
      NonEmptyKeeps(parts[1..], part);
    }
  }

  lemma {:induction false} PartsHaveNoSlash(s: string, part: string)
    requires part in Split(s)
    ensures '/' !in part
  {
    if s != "" {
      var rest := Split(s[1..]);
      if s[0] == '/' {
        if part != "" { PartsHaveNoSlash(s[1..], part); }
      } else if part in rest[1..] {
        PartsHaveNoSlash(s[1..], part);
      } else {
        PartsHaveNoSlash(s[1..], rest[0]);
      }
    }
  }

  lemma SegmentsAreSegments(pathname: string)
    ensures AreSegments(Segments(pathname))
  {
    forall part <- Segments(pathname)
      ensures part != "" && '/' !in part
    {
      NonEmptyKeeps(Split(pathname), part);
      PartsHaveNoSlash(pathname, part);
    }
  }

  lemma {:induction false} SegmentsOfJoined(parts: seq<string>)
    requires AreSegments(parts)
    ensures Segments(Join(parts)) == parts
  {
    if parts == [] {
    } else {
      assert parts[0] in parts;
      SplitOfAPart(parts[0]);
      assert NonEmpty([parts[0]]) == [parts[0]] + NonEmpty([parts[0]][1..]);
      if |parts| > 1 {
        assert forall part <- parts[1..] :: part in parts;
        SegmentsOfJoined(parts[1..]);
        SegmentsOfBoth(parts[0], Join(parts[1..]));
        assert parts == [parts[0]] + parts[1..];
      } else {
        assert parts == [parts[0]];
      }
    }
  }

  // ----- printing and reading back -----

  /** No leading, trailing or doubled slash. */
  predicate IsCanonical(path: string) {
    path == Join(Segments(path))
  }

  // What distinguishes an English path from a translated one.
  predicate StartsWithLocale(path: string) {
    Segments(path) != [] && IsLocale(Segments(path)[0])
  }

  lemma ASlashInFront(s: string)
    ensures Segments("/" + s) == Segments(s)
  {
    SegmentsOfBoth("", s);
    assert "" + "/" + s == "/" + s;
  }

  lemma ASlashBehind(s: string)
    ensures Segments(s + "/") == Segments(s)
  {
    SegmentsOfBoth(s, "");
    assert s + "/" + "" == s + "/";
  }

  lemma LanguagesAreSegments(locale: string)
    requires IsLocale(locale)
    ensures '/' !in locale && locale != "" && locale != ENGLISH
  {
  }

  lemma SegmentsOfSuffix(locale: string, path: string)
    requires '/' !in locale && locale != ""
    ensures Segments(locale + Suffix(path)) == [locale] + Segments(path)
  {
    SplitOfAPart(locale);
    assert NonEmpty([locale]) == [locale] + NonEmpty([locale][1..]);
    if path == "" {
      assert locale + Suffix(path) == locale;
    } else {
      SegmentsOfBoth(locale, path);
      assert locale + Suffix(path) == locale + "/" + path;
    }
  }

  /** The address holds the language's segment, if it has one, and then those of the path. */
  lemma SegmentsOfHref(locale: string, path: string)
    requires IsLanguage(locale)
    ensures Segments(GetLocalizedHref(locale, path)) == (if locale == ENGLISH then [] else [locale]) + Segments(path)
  {
    if locale == ENGLISH {
      ASlashInFront(path);
      ASlashBehind(Suffix(path));
      assert Segments(Suffix(path)) == Segments(path);
    } else {
      var part := locale + Suffix(path);
      LanguagesAreSegments(locale);
      SegmentsOfSuffix(locale, path);
      ASlashBehind(part);
      ASlashInFront(part + "/");
      assert "/" + (part + "/") == GetLocalizedHref(locale, path);
    }
  }

  /** Reading undoes printing exactly for the canonical paths, of which English must not have one that
      starts with a language. */
  lemma ReadingUndoesPrinting(locale: string, path: string)
    requires IsLanguage(locale)
    ensures SplitLocaleFromPathname(GetLocalizedHref(locale, path)) == LocalizedPathname(locale, path)
            <==> IsCanonical(path) && (locale == ENGLISH ==> !StartsWithLocale(path))
  {
    SegmentsOfHref(locale, path);
    if locale == ENGLISH {
      assert [] + Segments(path) == Segments(path);
      assert !IsLocale(ENGLISH);
    } else {
      assert ([locale] + Segments(path))[1..] == Segments(path);
    }
  }

  /** For any address at all: what has been read, printed and read again is what was read. */
  lemma PrintingKeepsWhatWasRead(pathname: string)
    ensures var read := SplitLocaleFromPathname(pathname);
            SplitLocaleFromPathname(GetLocalizedHref(read.locale, read.path)) == read
  {
    var segments := Segments(pathname);
    var read := SplitLocaleFromPathname(pathname);
    SegmentsAreSegments(pathname);
    if |segments| > 0 && IsLocale(segments[0]) {
      assert forall part <- segments[1..] :: part in segments;
      SegmentsOfJoined(segments[1..]);
    } else {
      SegmentsOfJoined(segments);
    }
    ReadingUndoesPrinting(read.locale, read.path);
  }
}
