/** `AIService`: the file-name heuristic behind generated alt text, the suggested
    compression quality and the upscale factor. */
module Ai {
  import opened Text

  const KIB: nat := 1024
  const MIB: nat := 1024 * 1024
  const HIGH_RESOLUTION_BYTES: nat := 1024 * 1024
  const UPSCALE_FACTOR: nat := 2

  /** `replace(/[-_]/g, ' ')`. */
  function SeparatorsToSpaces(s: string): (r: string)
    ensures |r| == |s|
    ensures forall i :: 0 <= i < |s| ==> r[i] == (if s[i] == '-' || s[i] == '_' then ' ' else s[i])
  {
    seq(|s|, i requires 0 <= i < |s| => if s[i] == '-' || s[i] == '_' then ' ' else s[i])
  }

  /** `replace(/\d+/g, '')`: every ASCII digit removed, everything else kept in order. */
  function RemoveDigits(s: string): (r: string)
    ensures |r| <= |s|
    ensures forall c :: c in r <==> c in s && !IsDigit(c)
    ensures (forall i :: 0 <= i < |s| ==> !IsDigit(s[i])) ==> r == s
    ensures |s| == 1 ==> r == if IsDigit(s[0]) then [] else s
  {
    if s == [] then []
    else if IsDigit(s[0]) then RemoveDigits(s[1..])
    else [s[0]] + RemoveDigits(s[1..])
  }

  /** Removing digits works piece by piece, so the kept characters stay in order and keep
      their multiplicity. */
  lemma {:induction false} RemoveDigitsAppend(a: string, b: string)
    ensures RemoveDigits(a + b) == RemoveDigits(a) + RemoveDigits(b)
  {
    if a == [] {
      assert a + b == b;
    } else {
      assert (a + b)[0] == a[0];
      assert (a + b)[1..] == a[1..] + b;
      RemoveDigitsAppend(a[1..], b);
    }
  }

  /** Without dots in the stem, the spaced stem holds no `-`, `_` or `.`. */
  lemma SpacedHasNoSeparator(stem: string)
    requires '.' !in stem
    ensures forall c :: c in SeparatorsToSpaces(stem) ==> c != '-' && c != '_' && c != '.'
  {
    var spaced := SeparatorsToSpaces(stem);
    forall c | c in spaced
      ensures c != '-' && c != '_' && c != '.'
    {
      var i :| 0 <= i < |spaced| && spaced[i] == c;
      assert stem[i] in stem;
    }
  }

  /** A character that survives cleaning: no digit, separator or dot. */
  predicate NameChar(c: char) {
    !IsDigit(c) && c != '-' && c != '_' && c != '.'
  }

  /** Trimming text made of name characters gives a cleaned name. */
  lemma TrimKeepsNameChars(s: string)
    requires forall c :: c in s ==> NameChar(c)
    ensures IsCleanName(Trim(s))
  {
    var t := TrimStart(s);
    var r := Trim(s);
    forall i | 0 <= i < |r|
      ensures NameChar(r[i])
    {
      assert r[i] == t[i] == s[|s| - |t| + i];
      assert s[|s| - |t| + i] in s;
    }
  }

  /** A cleaned name: only name characters, and no whitespace at either end. */
  predicate IsCleanName(s: string) {
    && (forall i :: 0 <= i < |s| ==> NameChar(s[i]))
    && (s != [] ==> !IsJsWhitespace(s[0]) && !IsJsWhitespace(s[|s| - 1]))
  }

  /** The cleaned name: the text before the first `.`, separators as spaces, digits
      removed, ends trimmed. */
  function CleanName(fileName: string): (r: string)
    ensures IsCleanName(r)
  {
    var stem := Before(fileName, '.');
    var spaced := SeparatorsToSpaces(stem);
    SpacedHasNoSeparator(stem);
    var digitless := RemoveDigits(spaced);
    assert forall c :: c in digitless ==> NameChar(c);
    TrimKeepsNameChars(digitless);
    Trim(digitless)
  }

  /** A stem that is already clean is the cleaned name of itself and of any file name it
      starts before the first `.`: nothing but the extension is dropped. */
  lemma CleanNameOfCleanStem(stem: string, ext: string)
    requires IsCleanName(stem)
    ensures CleanName(stem) == stem
    ensures CleanName(stem + "." + ext) == stem
  {
    assert '.' !in stem by {
      forall i | 0 <= i < |stem| ensures stem[i] != '.' {
        assert NameChar(stem[i]);
      }
    }
    BeforeOfPrefix(stem, ext);
    assert Before(stem, '.') == stem;
    assert SeparatorsToSpaces(stem) == stem;
    assert RemoveDigits(stem) == stem;
    assert TrimStart(stem) == stem;
    assert TrimEnd(stem) == stem;
  }

  /** Only the first character is upper-cased (`charAt(0).toUpperCase() + slice(1)`). */
  function Capitalize(s: string): (r: string)
    ensures |r| == |s|
    ensures s != [] ==> r[0] == UpperAscii(s[0]) && r[1..] == s[1..]
  {
    if s == [] then [] else [UpperAscii(s[0])] + s[1..]
  }

  /** `graphic/illustration` for `png`, otherwise `image`, then ` (high resolution)` above
      one mebibyte. */
  function Suffix(format: string, size: nat): (r: string)
    ensures StartsWith(r, "graphic/illustration") <==> format == "png"
    ensures StartsWith(r, "image") <==> format != "png"
    ensures (|r| >= |" (high resolution)"| && r[|r| - |" (high resolution)"|..] == " (high resolution)")
            <==> size > HIGH_RESOLUTION_BYTES
  {
    var base := if format == "png" then "graphic/illustration" else "image";
    var r := if size > HIGH_RESOLUTION_BYTES then base + " (high resolution)" else base;
    assert r[..|base|] == base;
    assert r[0] == base[0];
    assert format == "png" ==> !StartsWith(r, "image");
    assert format != "png" ==> !StartsWith(r, "graphic/illustration");
    r
  }

  /** `generateAltText`: `<name> <suffix>`, the name taken from the file name. */
  function AltText(fileName: string, format: string, size: nat): (r: string)
    ensures |r| == |CleanName(fileName)| + 1 + |Suffix(format, size)|
    ensures var name := r[..|CleanName(fileName)|];
      && name == Capitalize(CleanName(fileName))
      && IsCleanName(name)
      && r[|name|] == ' '
      && r[|name| + 1..] == Suffix(format, size)
  {
    var name := Capitalize(CleanName(fileName));
    UpperKeepsClass(CleanName(fileName));
    var suffix := Suffix(format, size);
    SpaceJoined(name, suffix);
    name + " " + suffix
  }

  /** The parts of `a + " " + b`. */
  lemma SpaceJoined(a: string, b: string)
    ensures var r := a + " " + b;
      && |r| == |a| + 1 + |b| && r[..|a|] == a && r[|a|] == ' ' && r[|a| + 1..] == b
  {
    var r := a + " " + b;
    assert r[..|a|] == a;
    assert r[|a| + 1..] == b;
  }

  /** Upper-casing the first character keeps each character out of the digits, the
      separators and the whitespace. */
  lemma UpperKeepsClass(s: string)
    requires IsCleanName(s)
    ensures IsCleanName(Capitalize(s))
  {
    var c := Capitalize(s);
    if s != [] {
      assert forall i :: 1 <= i < |c| ==> c[i] == s[i];
    }
  }

  /** Only the text before the first `.` matters: the extension plays no part. */
  lemma AltTextIgnoresExtension(stem: string, ext1: string, ext2: string, format: string, size: nat)
    requires '.' !in stem
    ensures AltText(stem + "." + ext1, format, size) == AltText(stem + "." + ext2, format, size)
  {
    BeforeOfPrefix(stem, ext1);
    BeforeOfPrefix(stem, ext2);
  }

  lemma {:induction false} BeforeOfPrefix(stem: string, ext: string)
    requires '.' !in stem
    ensures Before(stem + "." + ext, '.') == stem
  {
    if stem != [] {
      assert (stem + "." + ext)[1..] == stem[1..] + "." + ext;
      BeforeOfPrefix(stem[1..], ext);
    } else {
      assert (stem + "." + ext)[0] == '.';
    }
  }

  /** `suggestCompression`: 70 above 5 MiB, 90 below 500 KiB, 80 in between. */
  function SuggestCompression(format: string, size: nat): (q: int)
    ensures q == 70 || q == 80 || q == 90
    ensures q == 70 <==> size > 5 * MIB
    ensures q == 90 <==> size < 500 * KIB
  {
    if size > 5 * MIB then 70
    else if size < 500 * KIB then 90
    else 80
  }

  /** A larger file never gets a higher quality, and the format plays no part. */
  lemma SuggestionNonIncreasing(f1: string, f2: string, s1: nat, s2: nat)
    requires s1 <= s2
    ensures SuggestCompression(f2, s2) <= SuggestCompression(f1, s1)
  {
  }

  /** `getUpscaleFactor`. */
  function UpscaleFactor(): (r: nat)
    ensures r == UPSCALE_FACTOR
  {
    2
  }
}
