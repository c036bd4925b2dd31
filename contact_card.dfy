/** The avatar initials of a contact card: the first character of each
    space-separated word of the name, upper-cased, at most two of them.
    The contact table computes the same string. */
module ContactCard {
  import opened Text

  /** `String.prototype.split(" ")`: the pieces between single spaces,
      empty pieces included; the empty string gives one empty piece. */
  function Split(s: string): (r: seq<string>)
    ensures |r| >= 1
    ensures forall i :: 0 <= i < |r| ==> ' ' !in r[i]
  {
    if s == [] then [[]]
    else
      var rest := Split(s[1..]);
      if s[0] == ' ' then [[]] + rest
      else [[s[0]] + rest[0]] + rest[1..]
  }

  /** `Array.prototype.join(" ")`. */
  function Join(words: seq<string>): string
  {
    if words == [] then []
    else if |words| == 1 then words[0]
    else words[0] + " " + Join(words[1..])
  }

  /** `.map((n) => n[0]).join("")`: the first character of every piece; an
      empty piece gives `undefined`, which joins as nothing. */
  function Heads(words: seq<string>): string
  {
    if words == [] then []
    else (if words[0] == [] then [] else [words[0][0]]) + Heads(words[1..])
  }

  /** `initials`: heads of the words, upper-cased, cut to two characters. */
  function Initials(nama: string): (r: string)
    ensures |r| <= 2
  {
    var upper := ToUpper(Heads(Split(nama)));
    if |upper| <= 2 then upper else upper[..2]
  }

  /** An independent account of the same characters: those that are not a
      space and stand at the start or right after a space. `afterSpace`
      says whether the previous character was a space (or there was none). */
  function WordStarts(s: string, afterSpace: bool): string
  {
    if s == [] then []
    else (if afterSpace && s[0] != ' ' then [s[0]] else []) + WordStarts(s[1..], s[0] == ' ')
  }

  /** Splitting then joining gives back the name. */
  lemma {:induction false} JoinSplit(s: string)
    ensures Join(Split(s)) == s
  {
    if s != [] {
      JoinSplit(s[1..]);
      var rest := Split(s[1..]);
      if s[0] == ' ' {
        assert Split(s) == [[]] + rest;
        assert Join(Split(s)) == [] + " " + Join(rest);
      } else {
        assert Split(s) == [[s[0]] + rest[0]] + rest[1..];
        if |rest| == 1 {
          assert Join(Split(s)) == [s[0]] + rest[0];
        } else {
          assert Join(rest) == rest[0] + " " + Join(rest[1..]);
        }
      }
      assert s == [s[0]] + s[1..];
    }
  }

  /** The heads of the split words are the word starts: empty words, as
      from doubled or leading spaces, contribute nothing. With `afterSpace`
      false the first word is skipped, as it is glued to what came before. */
  lemma {:induction false} HeadsAreWordStarts(s: string, afterSpace: bool)
    ensures Heads(if afterSpace then Split(s) else Split(s)[1..]) == WordStarts(s, afterSpace)
  {
    if s != [] {
      var rest := Split(s[1..]);
      if s[0] == ' ' {
        HeadsAreWordStarts(s[1..], true);
        assert Split(s) == [[]] + rest;
        assert ([[]] + rest)[1..] == rest;
      } else {
        HeadsAreWordStarts(s[1..], false);
        assert Split(s) == [[s[0]] + rest[0]] + rest[1..];
        assert ([[s[0]] + rest[0]] + rest[1..])[1..] == rest[1..];
      }
    }
  }

  /** The initials are the upper-cased first two word starts of the name. */
  lemma InitialsFromWordStarts(nama: string)
    ensures var starts := ToUpper(WordStarts(nama, true));
      Initials(nama) == if |starts| <= 2 then starts else starts[..2]
  {
    HeadsAreWordStarts(nama, true);
  }

  /** A one-word name gives its first letter, upper-cased. */
  lemma {:induction false} OneWordInitial(nama: string)
    requires nama != [] && ' ' !in nama
    ensures Initials(nama) == [UpperChar(nama[0])]
  {
    HeadsAreWordStarts(nama, true);
    NoWordStartsAfterFirst(nama[1..]);
  }

  /** Inside a word without spaces no further word starts. */
  lemma {:induction false} NoWordStartsAfterFirst(s: string)
    requires ' ' !in s
    ensures WordStarts(s, false) == []
  {
    if s != [] {
      assert s[0] in s;
      assert forall c :: c in s[1..] ==> c in s;
      NoWordStartsAfterFirst(s[1..]);
    }
  }
}
