/**
  The layout's sidebar: the user's initials in the avatar, the name and email
  with their fallbacks, and which navigation item is highlighted.
*/
module Layout {
  import opened AppProvider

  /** `s.split(' ')`: an empty string gives one empty word, and every space
      ends a word, so repeated spaces give empty words. */
  function Split(s: string): (r: seq<string>)
    ensures |r| >= 1
    ensures forall i :: 0 <= i < |r| ==> ' ' !in r[i]
  {
    if s == [] then [""]
    else if s[0] == ' ' then [""] + Split(s[1..])
    else
      var rest := Split(s[1..]);
      [[s[0]] + rest[0]] + rest[1..]
  }

  /** `words.join(' ')`, the inverse of `Split`. */
  function JoinSpaces(words: seq<string>): string {
    if words == [] then ""
    else if |words| == 1 then words[0]
    else words[0] + " " + JoinSpaces(words[1..])
  }

  /** Splitting at spaces loses nothing: joining the words with single spaces
      gives back the name. */
  lemma {:induction false} SplitJoin(s: string)
    ensures JoinSpaces(Split(s)) == s
  {
    if s != [] {
      SplitJoin(s[1..]);
      var rest := Split(s[1..]);
      if s[0] == ' ' {
        assert Split(s) == [""] + rest;
        assert ([""] + rest)[1..] == rest;
        assert s == [' '] + s[1..];
      } else {
        var w := [[s[0]] + rest[0]] + rest[1..];
        assert Split(s) == w;
        if |rest| == 1 {
          assert rest == [rest[0]];
        } else {
          assert w[1..] == rest[1..];
          assert JoinSpaces(rest) == rest[0] + " " + JoinSpaces(rest[1..]);
        }
        assert s == [s[0]] + s[1..];
      }
    }
  }

  /** `.map(n => n[0]).join('')`: `n[0]` of an empty word is `undefined`,
      which `join` writes as nothing. */
  function Firsts(words: seq<string>): string {
    if words == [] then ""
    else (if words[0] == "" then "" else [words[0][0]]) + Firsts(words[1..])
  }

  /** `.substring(0, 2)`. */
  function Take2(s: string): string {
    if |s| <= 2 then s else s[..2]
  }

  function UpperChar(c: char): char {
    if 'a' <= c <= 'z' then (c as int - 'a' as int + 'A' as int) as char else c
  }

  /** `.toUpperCase()`, one character at a time. */
  function Upper(s: string): (r: string)
    ensures |r| == |s|
    ensures forall i :: 0 <= i < |s| ==> r[i] == UpperChar(s[i])
  {
    if s == [] then [] else [UpperChar(s[0])] + Upper(s[1..])
  }

  /** `user?.name`, with a missing name read as the empty string (both are falsy). */
  function EmailOf(u: UserRecord): string {
    if "email" in u then u["email"] else ""
  }

  /** The avatar text. */
  function Initials(u: UserRecord): (r: string)
    ensures NameOf(u) == "" ==> r == "U"
    ensures |r| <= 2
  {
    var name := NameOf(u);
    if name != "" then Upper(Take2(Firsts(Split(name)))) else "U"
  }

  /** An independent reading of the words' first characters: scanning the
      name, keep each non-space character that starts the name or follows a
      space. */
  function WordStarts(s: string, atStart: bool): string {
    if s == [] then ""
    else if s[0] == ' ' then WordStarts(s[1..], true)
    else (if atStart then [s[0]] else "") + WordStarts(s[1..], false)
  }

  lemma {:induction false} FirstsAppend(a: seq<string>, b: seq<string>)
    ensures Firsts(a + b) == Firsts(a) + Firsts(b)
  {
    if a == [] {
      assert a + b == b;
    } else {
      assert (a + b)[0] == a[0] && (a + b)[1..] == a[1..] + b;
      FirstsAppend(a[1..], b);
    }
  }

  /** The split-map-join chain keeps exactly the characters that start a word;
      the empty words of repeated spaces contribute nothing. */
  lemma {:induction false} FirstsOfSplit(s: string)
    ensures Firsts(Split(s)) == WordStarts(s, true)
    ensures Firsts(Split(s)[1..]) == WordStarts(s, false)
  {
    if s != [] {
      var rest := Split(s[1..]);
      FirstsOfSplit(s[1..]);
      if s[0] == ' ' {
        assert Split(s) == [""] + rest;
        FirstsAppend([""], rest);
        assert Split(s)[1..] == rest;
      } else {
        var w := [s[0]] + rest[0];
        assert Split(s) == [w] + rest[1..];
        FirstsAppend([w], rest[1..]);
        assert Firsts([w]) == [s[0]];
        assert Split(s)[1..] == rest[1..];
      }
    }
  }

  /** The initials are the upper-cased first two word starts of a non-empty name. */
  lemma InitialsAreWordStarts(u: UserRecord)
    requires NameOf(u) != ""
    ensures Initials(u) == Upper(Take2(WordStarts(NameOf(u), true)))
  {
    FirstsOfSplit(NameOf(u));
  }

  /** As written, a name made of spaces only passes the guard but has no word
      starts, so the avatar shows nothing at all. */
  lemma BlankNameGivesNoInitials()
    ensures NameOf(map["name" := " "]) != ""
    ensures Initials(map["name" := " "]) == ""
  {
    InitialsAreWordStarts(map["name" := " "]);
  }

  /** The avatar text with the fallback applied to the initials themselves:
      'U' whenever the name has no word start. */
  function InitialsOrDefault(u: UserRecord): (r: string)
    ensures 1 <= |r| <= 2
    ensures WordStarts(NameOf(u), true) == "" ==> r == "U"
    ensures WordStarts(NameOf(u), true) != "" ==> r == Upper(Take2(WordStarts(NameOf(u), true)))
  {
    var i := Initials(u);
    if NameOf(u) == "" then "U"
    else
      InitialsAreWordStarts(u);
      if i == "" then "U" else i
  }

  /** `user?.name || "Guest"`: the name itself whenever it is non-empty, else "Guest". */
  function DisplayName(u: UserRecord): (r: string)
    ensures NameOf(u) != "" ==> r == NameOf(u)
    ensures NameOf(u) == "" ==> r == "Guest"
    ensures r != ""
  {
    if NameOf(u) != "" then NameOf(u) else "Guest"
  }

  /** `user?.email || "No Email"`. */
  function DisplayEmail(u: UserRecord): (r: string)
    ensures EmailOf(u) != "" ==> r == EmailOf(u)
    ensures EmailOf(u) == "" ==> r == "No Email"
    ensures r != ""
  {
    if EmailOf(u) != "" then EmailOf(u) else "No Email"
  }

  datatype NavItem = NavItem(name: string, path: string)

  const NavItems: seq<NavItem> := [
    NavItem("Dashboard", "/"), NavItem("Workout", "/workout"), NavItem("Diet", "/diet"),
    NavItem("Water", "/water"), NavItem("Daily Log", "/log"), NavItem("Profile", "/profile")]

  /** `location.pathname === item.path`. */
  predicate IsActive(pathname: string, item: NavItem) {
    pathname == item.path
  }

  /** The items' paths are distinct, so at most one item is highlighted, and
      exactly one when the current path is one of theirs. */
  lemma AtMostOneActive(pathname: string)
    ensures forall i, j :: 0 <= i < j < |NavItems| ==>
      !(IsActive(pathname, NavItems[i]) && IsActive(pathname, NavItems[j]))
    ensures (exists i :: 0 <= i < |NavItems| && IsActive(pathname, NavItems[i])) <==>
      pathname in {"/", "/workout", "/diet", "/water", "/log", "/profile"}
  {
    assert NavItems[0].path == "/" && NavItems[1].path == "/workout";
    assert NavItems[2].path == "/diet" && NavItems[3].path == "/water";
    assert NavItems[4].path == "/log" && NavItems[5].path == "/profile";
  }
}
