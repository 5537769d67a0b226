/** Filename sanitising and the black-or-white text colour rule (config.py). */
module Config {
  import opened Colors

  /** The characters Windows refuses in file names: `< > : " / \ | ? *`. */
  predicate IsForbidden(c: char) {
    c == '<' || c == '>' || c == ':' || c == '"' || c == '/' || c == '\\' || c == '|' || c == '?' || c == '*'
  }

  /** Deletes every forbidden character and keeps the others in order. */
  function SanitizeFilename(s: string): (r: string)
    ensures |r| <= |s|
    ensures forall i :: 0 <= i < |r| ==> !IsForbidden(r[i])
  {
    if s == [] then []
    else
      (if IsForbidden(s[0]) then [] else [s[0]]) + SanitizeFilename(s[1..])
  }

  /** A name with no forbidden character is left exactly as it is. */
  lemma {:induction false} SanitizeClean(s: string)
    requires forall i :: 0 <= i < |s| ==> !IsForbidden(s[i])
    ensures SanitizeFilename(s) == s
  {
    if s != [] {
      SanitizeClean(s[1..]);
    }
  }

  lemma SanitizeIdempotent(s: string)
    ensures SanitizeFilename(SanitizeFilename(s)) == SanitizeFilename(s)
  {
    SanitizeClean(SanitizeFilename(s));
  }

  /** Sanitising works character by character, so it distributes over concatenation. */
  lemma {:induction false} SanitizeAppend(a: string, b: string)
    ensures SanitizeFilename(a + b) == SanitizeFilename(a) + SanitizeFilename(b)
  {
    if a != [] {
      var head := if IsForbidden(a[0]) then [] else [a[0]];
      assert (a + b)[1..] == a[1..] + b;
      assert SanitizeFilename(a + b) == head + SanitizeFilename(a[1..] + b);
      assert SanitizeFilename(a) == head + SanitizeFilename(a[1..]);
      SanitizeAppend(a[1..], b);
    } else {
      assert a + b == b;
    }
  }

  /** Every character other than the nine forbidden ones survives, as often as it occurred. */
  lemma {:induction false} SanitizeKeepsOthers(s: string, c: char)
    requires !IsForbidden(c)
    ensures multiset(SanitizeFilename(s))[c] == multiset(s)[c]
  {
    if s != [] {
      assert s == [s[0]] + s[1..];
      SanitizeKeepsOthers(s[1..], c);
    }
  }

  /** The name keeps its length exactly when it holds no forbidden character. */
  lemma {:induction false} SanitizeLength(s: string)
    ensures |SanitizeFilename(s)| == |s| <==> forall i :: 0 <= i < |s| ==> !IsForbidden(s[i])
  {
    if s != [] {
      SanitizeLength(s[1..]);
      assert forall i :: 1 <= i < |s| ==> s[i] == s[1..][i - 1];
    }
  }

  /** Perceived brightness on a 0..1 scale: (0.299 R + 0.587 G + 0.114 B) / 255. */
  function Brightness(c: Rgb): real {
    (0.299 * c.r as real + 0.587 * c.g as real + 0.114 * c.b as real) / 255.0
  }

  /** Black text on a bright background, white text on a dark one. */
  function GetTextColor(bg: Rgb): (r: Rgb)
    ensures r == Black || r == White
    ensures r == Black <==> 299 * bg.r + 587 * bg.g + 114 * bg.b > 127500
  {
    if Brightness(bg) > 0.5 then Black else White
  }

  lemma TextColorOfExtremes()
    ensures GetTextColor(Black) == White && GetTextColor(White) == Black
  {
  }
}
