/** The initials an avatar shows when there is no picture. */
module Avatar {
  import opened Strings

  /** `words.map(w => w[0]).join("")`: the first character of each word; an empty word has no
      first character, and `undefined` joins as the empty string. */
  function FirstChars(words: seq<string>): string {
    if words == [] then ""
    else (if words[0] == "" then "" else [words[0][0]]) + FirstChars(words[1..])
  }

  /** `name.split(" ").map(w => w[0]).join("").slice(0, 2).toUpperCase()`; `name` defaults to "". */
  function Initials(name: string): (r: string)
    ensures |r| <= 2
    ensures forall i :: 0 <= i < |r| ==> r[i] != ' ' && !('a' <= r[i] <= 'z')
  {
    var heads := FirstChars(Split(name, ' '));
    FirstCharsNoSpace(Split(name, ' '));
    var cut := if |heads| <= 2 then heads else heads[..2];
    ToUpper(cut)
  }

  /** No first character of a space-free word is a space. */
  lemma {:induction false} FirstCharsNoSpace(words: seq<string>)
    requires forall i :: 0 <= i < |words| ==> ' ' !in words[i]
    ensures ' ' !in FirstChars(words)
  {
    if words != [] {
      FirstCharsNoSpace(words[1..]);
      if words[0] != "" {
        assert words[0][0] in words[0];
      }
    }
  }

  /** The characters that start a word: non-space characters at the start of `s` (when
      `atStart`) or right after a space. A direct reading of the initials, independent of
      splitting. */
  function WordStarts(s: string, atStart: bool): string {
    if s == [] then ""
    else (if atStart && s[0] != ' ' then [s[0]] else "") + WordStarts(s[1..], s[0] == ' ')
  }

  /** Splitting on spaces and taking first characters is reading off the word starts; runs of
      spaces yield empty words that contribute nothing. */
  lemma {:induction false} FirstCharsAreWordStarts(s: string)
    ensures FirstChars(Split(s, ' ')) == WordStarts(s, true)
    ensures FirstChars(Split(s, ' ')[1..]) == WordStarts(s, false)
  {
    if s != [] {
      var rest := Split(s[1..], ' ');
      FirstCharsAreWordStarts(s[1..]);
      var w := Split(s, ' ');
      if s[0] == ' ' {
        assert w == [""] + rest;
        assert w[1..] == rest;
      } else {
        assert w == [[s[0]] + rest[0]] + rest[1..];
        assert w[1..] == rest[1..];
        assert FirstChars(w) == [s[0]] + FirstChars(rest[1..]);
      }
    }
  }

  /** The initials, stated without splitting: the first two word starts, upper-cased. */
  lemma InitialsAreWordStarts(name: string)
    ensures var starts := WordStarts(name, true);
      Initials(name) == ToUpper(if |starts| <= 2 then starts else starts[..2])
  {
    FirstCharsAreWordStarts(name);
  }

  /** The default empty name gives no initials. */
  lemma EmptyNameHasNoInitials()
    ensures Initials("") == ""
  {
  }

  /** A space before a word contributes nothing. */
  lemma LeadingSpaceIgnored(name: string)
    ensures Initials(" " + name) == Initials(name)
  {
    var s := " " + name;
    assert s[0] == ' ' && s[1..] == name;
    assert WordStarts(s, true) == WordStarts(name, true);
    InitialsAreWordStarts(s);
    InitialsAreWordStarts(name);
  }
}
