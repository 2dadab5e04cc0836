/**
 Regular expressions with the meaning of an anchored match: the whole string, `$`
 being the end of the string. The repository's patterns only repeat character
 classes, so repetition is of a class.
 */
module Regex {

  datatype Regex =
    | Class(chars: set<char>)
    | Many(chars: set<char>)
    | Times(chars: set<char>, count: nat)
    | Cat(first: Regex, second: Regex)
    | Alt(left: Regex, right: Regex)
    | Opt(body: Regex)

  ghost predicate Matches(r: Regex, s: string) {
    match r
    case Class(chars) => |s| == 1 && s[0] in chars
    case Many(chars) => AllIn(s, chars)
    case Times(chars, count) => |s| == count && AllIn(s, chars)
    case Cat(first, second) => exists i :: 0 <= i <= |s| && Matches(first, s[..i]) && Matches(second, s[i..])
    case Alt(left, right) => Matches(left, s) || Matches(right, s)
    case Opt(body) => s == "" || Matches(body, s)
  }

  predicate AllIn(s: string, chars: set<char>) {
    forall i :: 0 <= i < |s| ==> s[i] in chars
  }

  lemma MatchesCat(first: Regex, second: Regex, a: string, b: string)
    requires Matches(first, a) && Matches(second, b)
    ensures Matches(Cat(first, second), a + b)
  {
    assert (a + b)[..|a|] == a && (a + b)[|a|..] == b;
  }

  lemma CatSplit(first: Regex, second: Regex, s: string) returns (i: nat)
    requires Matches(Cat(first, second), s)
    ensures i <= |s| && Matches(first, s[..i]) && Matches(second, s[i..]) && s == s[..i] + s[i..]
  {
    i :| 0 <= i <= |s| && Matches(first, s[..i]) && Matches(second, s[i..]);
  }

  lemma ClassFirst(chars: set<char>, rest: Regex, s: string)
    ensures Matches(Cat(Class(chars), rest), s) <==> s != "" && s[0] in chars && Matches(rest, s[1..])
  {
    if s != "" && s[0] in chars && Matches(rest, s[1..]) {
      MatchesCat(Class(chars), rest, [s[0]], s[1..]);
      assert s == [s[0]] + s[1..];
    }
  }

  lemma ClassIs(chars: set<char>, s: string)
    ensures Matches(Class(chars), s) <==> |s| == 1 && s[0] in chars
    ensures Matches(Many(chars), s) <==> AllIn(s, chars)
  {}

  lemma ClassLast(chars: set<char>, last: set<char>, s: string)
    ensures Matches(Cat(Many(chars), Class(last)), s) <==>
            s != "" && AllIn(s[..|s| - 1], chars) && s[|s| - 1] in last
  {
    hide Matches, AllIn;
    if s != "" {
      ClassIs(chars, s[..|s| - 1]);
      ClassIs(last, [s[|s| - 1]]);
      assert s == s[..|s| - 1] + [s[|s| - 1]];
      if AllIn(s[..|s| - 1], chars) && s[|s| - 1] in last {
        MatchesCat(Many(chars), Class(last), s[..|s| - 1], [s[|s| - 1]]);
      }
    }
    if Matches(Cat(Many(chars), Class(last)), s) {
      var i := CatSplit(Many(chars), Class(last), s);
      ClassIs(last, s[i..]);
      ClassIs(chars, s[..i]);
    }
  }

  /** The rest of a text from place `i` on matches. */
  ghost predicate MatchesFrom(r: Regex, s: string, i: nat) {
    i <= |s| && Matches(r, s[i..])
  }

  /** A fixed number of characters in front can be split off. */
  lemma TimesFirst(chars: set<char>, count: nat, second: Regex, s: string, i: nat)
    ensures MatchesFrom(Cat(Times(chars, count), second), s, i) <==>
            i + count <= |s| && AllIn(s[i..i + count], chars) && MatchesFrom(second, s, i + count)
  {
    if MatchesFrom(Cat(Times(chars, count), second), s, i) {
      var j :| 0 <= j <= |s[i..]| && Matches(Times(chars, count), s[i..][..j]) && Matches(second, s[i..][j..]);
      assert j == count;
    }
    if i + count <= |s| {
      assert s[i..][..count] == s[i..i + count] && s[i..][count..] == s[i + count..];
      assert Matches(Times(chars, count), s[i..][..count]) <==> AllIn(s[i..i + count], chars);
    }
  }

  lemma TimesLast(chars: set<char>, count: nat, s: string, i: nat)
    ensures MatchesFrom(Times(chars, count), s, i) <==> |s| == i + count && AllIn(s[i..i + count], chars)
  {
    if i <= |s| {
      assert |s| == i + count ==> s[i..] == s[i..i + count];
    }
  }
}
