/**
 * The directory name `GameJoltArchiver.create_game_directory` derives from a
 * game's title: characters other than letters, digits, space, `-` and `_`
 * become `_`, surrounding spaces are stripped, and the spaces left become `_`.
 */
module TitleSanitizer {
  import opened Text

  /** `c.isalnum()`, for ASCII letters and digits. */
  predicate IsAlnum(c: char) {
    ('a' <= c <= 'z') || ('A' <= c <= 'Z') || ('0' <= c <= '9')
  }

  /** `c if c.isalnum() or c in " -_" else "_"` */
  function KeepChar(c: char): char {
    if IsAlnum(c) || c == ' ' || c == '-' || c == '_' then c else '_'
  }

  function KeepChars(t: string): (r: string)
    ensures |r| == |t|
  {
    seq(|t|, i requires 0 <= i < |t| => KeepChar(t[i]))
  }

  /** The safe title: the comprehension, then `strip()`, then the space replacement. */
  function SafeTitle(title: string): string {
    ReplaceChar(Strip(KeepChars(title), ' '), ' ', '_')
  }

  // ---------------------------------------------------------------------------
  // A reference definition: strip the title first, then map each character

  /** The characters a safe title is made of. */
  predicate IsPathChar(c: char) {
    IsAlnum(c) || c == '-' || c == '_'
  }

  function PathChar(c: char): char {
    if IsPathChar(c) then c else '_'
  }

  function PathChars(s: string): (r: string)
    ensures |r| == |s|
  {
    seq(|s|, i requires 0 <= i < |s| => PathChar(s[i]))
  }

  /** Only a space is mapped to a space, so the mapping and `lstrip` commute. */
  lemma {:induction false} KeepCharsTrimStart(t: string)
    ensures TrimStart(KeepChars(t), ' ') == KeepChars(TrimStart(t, ' '))
    decreases |t|
  {
    var m := KeepChars(t);
    if t != [] && t[0] == ' ' {
      assert m[0] == ' ';
      var m1 := KeepChars(t[1..]);
      assert m[1..] == m1;
      KeepCharsTrimStart(t[1..]);
      calc {
        TrimStart(m, ' ');
        TrimStart(m[1..], ' ');
        TrimStart(m1, ' ');
        KeepChars(TrimStart(t[1..], ' '));
        KeepChars(TrimStart(t, ' '));
      }
    } else {
      assert TrimStart(t, ' ') == t;
      assert m == [] || m[0] != ' ';
      assert TrimStart(m, ' ') == m;
    }
  }

  lemma {:induction false} KeepCharsTrimEnd(t: string)
    ensures TrimEnd(KeepChars(t), ' ') == KeepChars(TrimEnd(t, ' '))
    decreases |t|
  {
    var m := KeepChars(t);
    if t != [] && t[|t| - 1] == ' ' {
      assert m[|m| - 1] == ' ';
      var m1 := KeepChars(t[..|t| - 1]);
      assert m[..|m| - 1] == m1;
      KeepCharsTrimEnd(t[..|t| - 1]);
      calc {
        TrimEnd(m, ' ');
        TrimEnd(m[..|m| - 1], ' ');
        TrimEnd(m1, ' ');
        KeepChars(TrimEnd(t[..|t| - 1], ' '));
        KeepChars(TrimEnd(t, ' '));
      }
    } else {
      assert TrimEnd(t, ' ') == t;
      assert m == [] || m[|m| - 1] != ' ';
      assert TrimEnd(m, ' ') == m;
    }
  }

  /** Mapping each character with `KeepChar` and then spaces to `_` is mapping with `PathChar`. */
  lemma KeepThenReplace(s: string)
    ensures ReplaceChar(KeepChars(s), ' ', '_') == PathChars(s)
  {
    var k := KeepChars(s);
    var r := ReplaceChar(k, ' ', '_');
    forall i | 0 <= i < |s| ensures r[i] == PathChars(s)[i] {
      assert k[i] == KeepChar(s[i]);
    }
  }

  /** Only a space is mapped to a space, so the mapping and `strip` commute. */
  lemma KeepCharsStrip(title: string)
    ensures Strip(KeepChars(title), ' ') == KeepChars(Strip(title, ' '))
  {
    KeepCharsTrimStart(title);
    KeepCharsTrimEnd(TrimStart(title, ' '));
  }

  /** Sanitising is stripping surrounding spaces and then mapping each character to `PathChar`. */
  lemma SafeTitleIsStripThenMap(title: string)
    ensures SafeTitle(title) == PathChars(Strip(title, ' '))
  {
    KeepCharsStrip(title);
    KeepThenReplace(Strip(title, ' '));
  }

  /** `PathChars` of a slice, read against the string it is cut from. */
  lemma PathCharsOfSlice(t: string, s: string, lead: nat)
    requires lead + |s| <= |t| && s == t[lead..lead + |s|]
    ensures forall i :: 0 <= i < |s| ==>
      IsPathChar(PathChars(s)[i]) && PathChars(s)[i] == (if IsPathChar(t[lead + i]) then t[lead + i] else '_')
  {
    forall i | 0 <= i < |s|
      ensures IsPathChar(PathChars(s)[i]) && PathChars(s)[i] == (if IsPathChar(t[lead + i]) then t[lead + i] else '_')
    {
      assert s[i] == t[lead + i];
    }
  }

  /** `PathChars` of the stripped title, read against the title itself. */
  lemma PathCharsOfStrip(title: string) returns (lead: nat)
    ensures var p := PathChars(Strip(title, ' '));
      && (forall i :: 0 <= i < |p| ==> IsPathChar(p[i]))
      && lead + |p| <= |title|
      && (forall k :: 0 <= k < lead ==> title[k] == ' ')
      && (forall k :: lead + |p| <= k < |title| ==> title[k] == ' ')
      && (p == [] || (title[lead] != ' ' && title[lead + |p| - 1] != ' '))
      && (forall i :: 0 <= i < |p| ==> p[i] == (if IsPathChar(title[lead + i]) then title[lead + i] else '_'))
  {
    var s := Strip(title, ' ');
    lead := StripShape(title, ' ');
    assert s == title[lead..lead + |s|];
    PathCharsOfSlice(title, s, lead);
    if s != [] {
      assert s[0] == title[lead] && s[|s| - 1] == title[lead + |s| - 1];
    }
  }

  /**
   * The safe title has only letters, digits, `-` and `_`; it is as long as
   * the title without its leading and trailing spaces; and each of its
   * characters is the corresponding character of that stripped title, or `_`
   * where that character is a space or is not allowed.
   */
  lemma SafeTitleShape(title: string) returns (lead: nat)
    ensures forall i :: 0 <= i < |SafeTitle(title)| ==> IsPathChar(SafeTitle(title)[i])
    ensures lead + |SafeTitle(title)| <= |title|
    ensures forall k :: 0 <= k < lead ==> title[k] == ' '
    ensures forall k :: lead + |SafeTitle(title)| <= k < |title| ==> title[k] == ' '
    ensures SafeTitle(title) == [] || (title[lead] != ' ' && title[lead + |SafeTitle(title)| - 1] != ' ')
    ensures forall i :: 0 <= i < |SafeTitle(title)| ==>
      SafeTitle(title)[i] == (if IsPathChar(title[lead + i]) then title[lead + i] else '_')
  {
    SafeTitleIsStripThenMap(title);
    lead := PathCharsOfStrip(title);
  }

  lemma PathCharsHaveNoSlash(s: string)
    ensures '/' !in PathChars(s)
  {
    forall i | 0 <= i < |s| ensures PathChars(s)[i] != '/' {
      assert PathChars(s)[i] == PathChar(s[i]);
    }
  }

  /** A safe title never holds a path separator, so it names one directory. */
  lemma SafeTitleHasNoSlash(title: string)
    ensures '/' !in SafeTitle(title)
  {
    SafeTitleIsStripThenMap(title);
    PathCharsHaveNoSlash(Strip(title, ' '));
  }

  /** A string of allowed characters is its own safe title. */
  lemma SafeTitleOfPathChars(r: string)
    requires forall i :: 0 <= i < |r| ==> IsPathChar(r[i])
    ensures SafeTitle(r) == r
  {
    assert KeepChars(r) == r;
    assert r == [] || (r[0] != ' ' && r[|r| - 1] != ' ');
    StripUnbordered(r, ' ');
    assert ReplaceChar(r, ' ', '_') == r;
  }

  /** Sanitising a safe title changes nothing. */
  lemma SafeTitleIdempotent(title: string)
    ensures SafeTitle(SafeTitle(title)) == SafeTitle(title)
  {
    SafeTitleIsStripThenMap(title);
    var r := SafeTitle(title);
    assert forall i :: 0 <= i < |r| ==> IsPathChar(r[i]);
    SafeTitleOfPathChars(r);
  }

  /** A title made of allowed characters and inner spaces keeps its characters and gets `_` for its spaces. */
  lemma PlainTitle()
    ensures SafeTitle("My Game") == "My_Game"
  {
    SafeTitleIsStripThenMap("My Game");
    assert Strip("My Game", ' ') == "My Game";
  }
}
