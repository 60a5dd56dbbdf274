/** The string operations the records and the column headers use: Python's
    str.upper, str.title and str.replace, on ASCII text. */
module Text {

  predicate IsLower(c: char)
  {
    'a' <= c <= 'z'
  }

  predicate IsUpper(c: char)
  {
    'A' <= c <= 'Z'
  }

  /** A cased character in the sense of str.title: for ASCII, a letter. */
  predicate IsLetter(c: char)
  {
    IsLower(c) || IsUpper(c)
  }

  function UpperChar(c: char): (u: char)
    ensures IsLower(c) ==> IsUpper(u) && u as int == c as int - 32
    ensures !IsLower(c) ==> u == c
  {
    if IsLower(c) then (c as int - 32) as char else c
  }

  function LowerChar(c: char): (l: char)
    ensures IsUpper(c) ==> IsLower(l) && l as int == c as int + 32
    ensures !IsUpper(c) ==> l == c
  {
    if IsUpper(c) then (c as int + 32) as char else c
  }

  /** str.upper. */
  function Upper(s: string): string
  {
    seq(|s|, i requires 0 <= i < |s| => UpperChar(s[i]))
  }

  /** str.upper keeps the length and leaves no lower-case letter, and
      applying it twice changes nothing more. */
  lemma UpperProperties(s: string)
    ensures |Upper(s)| == |s|
    ensures forall i :: 0 <= i < |s| ==> !IsLower(Upper(s)[i])
    ensures forall i :: 0 <= i < |s| ==> !IsLetter(s[i]) ==> Upper(s)[i] == s[i]
    ensures Upper(Upper(s)) == Upper(s)
  {
  }

  /** str.upper works character by character, so it distributes over
      concatenation. */
  lemma UpperAppend(a: string, b: string)
    ensures Upper(a + b) == Upper(a) + Upper(b)
  {
    assert forall i :: 0 <= i < |a| + |b| ==> Upper(a + b)[i] == (Upper(a) + Upper(b))[i];
  }

  /** str.title: a letter is upper-cased when the character before it is not
      a letter (or there is none), and lower-cased otherwise. */
  function Title(s: string): string
  {
    seq(|s|, i requires 0 <= i < |s| =>
      if i > 0 && IsLetter(s[i - 1]) then LowerChar(s[i]) else UpperChar(s[i]))
  }

  /** Changing case keeps a character a letter or a non-letter, and is
      idempotent. */
  lemma CaseChar(c: char)
    ensures IsLetter(UpperChar(c)) <==> IsLetter(c)
    ensures IsLetter(LowerChar(c)) <==> IsLetter(c)
    ensures UpperChar(UpperChar(c)) == UpperChar(c)
    ensures LowerChar(LowerChar(c)) == LowerChar(c)
  {
  }

  /** Title-casing keeps the length and which characters are letters. */
  lemma TitleLetters(s: string)
    ensures |Title(s)| == |s|
    ensures forall i :: 0 <= i < |s| ==> (IsLetter(Title(s)[i]) <==> IsLetter(s[i]))
  {
    forall i | 0 <= i < |s|
      ensures IsLetter(Title(s)[i]) <==> IsLetter(s[i])
    {
      CaseChar(s[i]);
    }
  }

  /** A word starts at i: a letter with no letter before it. */
  predicate StartsWord(s: string, i: nat)
    requires i < |s|
  {
    IsLetter(s[i]) && (i == 0 || !IsLetter(s[i - 1]))
  }

  /** Every word of a title-cased string starts upper-case and continues
      lower-case. */
  lemma TitleWords(s: string)
    ensures forall i :: 0 <= i < |s| && StartsWord(s, i) ==> IsUpper(Title(s)[i])
    ensures forall i :: 0 < i < |s| && IsLetter(s[i]) && IsLetter(s[i - 1]) ==> IsLower(Title(s)[i])
  {
    forall i | 0 <= i < |s| && StartsWord(s, i)
      ensures IsUpper(Title(s)[i])
    {
      if IsLower(s[i]) {
        assert IsUpper(UpperChar(s[i]));
      }
    }
    forall i | 0 < i < |s| && IsLetter(s[i]) && IsLetter(s[i - 1])
      ensures IsLower(Title(s)[i])
    {
      if IsUpper(s[i]) {
        assert IsLower(LowerChar(s[i]));
      }
    }
  }

  /** Title-casing twice changes nothing more. */
  lemma TitleIdempotent(s: string)
    ensures Title(Title(s)) == Title(s)
  {
    var t := Title(s);
    TitleLetters(s);
    var tt := Title(t);
    forall i | 0 <= i < |s|
      ensures tt[i] == t[i]
    {
      CaseChar(s[i]);
    }
  }

  /** str.replace(pat, rep): occurrences of pat are replaced from left to
      right, never overlapping. */
  function Replace(s: string, pat: string, rep: string): string
    requires |pat| > 0
    decreases |s|
  {
    if |s| < |pat| then s
    else if s[..|pat|] == pat then rep + Replace(s[|pat|..], pat, rep)
    else [s[0]] + Replace(s[1..], pat, rep)
  }

  /** Replacing one character by another maps the string character by
      character, so the replaced character is gone afterwards. */
  lemma {:induction false} ReplaceChar(s: string, a: char, b: char)
    ensures |Replace(s, [a], [b])| == |s|
    ensures forall i :: 0 <= i < |s| ==> Replace(s, [a], [b])[i] == (if s[i] == a then b else s[i])
    decreases |s|
  {
    if |s| > 0 {
      ReplaceChar(s[1..], a, b);
      var r := Replace(s, [a], [b]);
      var rest := Replace(s[1..], [a], [b]);
      assert r == (if s[0] == a then [b] else [s[0]]) + rest;
      forall i | 0 <= i < |s|
        ensures r[i] == (if s[i] == a then b else s[i])
      {
        if i > 0 {
          assert r[i] == rest[i - 1];
          assert s[i] == s[1..][i - 1];
        }
      }
    }
  }

  /** "Gp" occurs at index i. */
  predicate HasGpAt(s: string, i: int)
  {
    0 <= i && i + 1 < |s| && s[i] == 'G' && s[i + 1] == 'p'
  }

  /** After replace("Gp", "GP") no "Gp" is left: the replacement ends in an
      upper-case P, so it cannot start a new occurrence, and it begins with G
      after a character that is never followed by p. The length is kept. */
  lemma {:induction false} ReplaceGpRemovesGp(s: string)
    ensures |Replace(s, "Gp", "GP")| == |s|
    ensures forall i :: !HasGpAt(Replace(s, "Gp", "GP"), i)
    ensures |s| > 0 ==> Replace(s, "Gp", "GP")[0] == s[0]
    decreases |s|
  {
    var r := Replace(s, "Gp", "GP");
    if |s| < 2 {
    } else if s[..2] == "Gp" {
      var rest := Replace(s[2..], "Gp", "GP");
      ReplaceGpRemovesGp(s[2..]);
      assert r == "GP" + rest;
      forall i
        ensures !HasGpAt(r, i)
      {
        if i >= 2 {
          assert !HasGpAt(rest, i - 2);
        }
      }
    } else {
      var rest := Replace(s[1..], "Gp", "GP");
      ReplaceGpRemovesGp(s[1..]);
      assert r == [s[0]] + rest;
      forall i
        ensures !HasGpAt(r, i)
      {
        if i >= 1 {
          assert !HasGpAt(rest, i - 1);
        } else if 0 < |rest| {
          assert rest[0] == s[1];
        }
      }
    }
  }

  /** The header humanizer of history: underscores become spaces, then the
      result is title-cased. */
  function HumanizeHistory(name: string): string
  {
    Title(Replace(name, "_", " "))
  }

  /** The header humanizer of stats: the history humanizer, then "Gp" becomes
      "GP". */
  function HumanizeStats(name: string): string
  {
    Replace(HumanizeHistory(name), "Gp", "GP")
  }

  /** A humanized header has the name's length and no underscore; the stats
      humanizer also leaves no "Gp". */
  lemma HumanizeProperties(name: string)
    ensures |HumanizeHistory(name)| == |name|
    ensures forall i :: 0 <= i < |name| ==> HumanizeHistory(name)[i] != '_'
    ensures |HumanizeStats(name)| == |name|
    ensures forall i :: !HasGpAt(HumanizeStats(name), i)
  {
    ReplaceChar(name, '_', ' ');
    var spaced := Replace(name, "_", " ");
    TitleLetters(spaced);
    ReplaceGpRemovesGp(HumanizeHistory(name));
  }
}
