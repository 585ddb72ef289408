/**
 * The navigation bar of client/src/components/layout/navbar.tsx: the links
 * offered to each kind of user and the initials shown in the avatar.
 */
module Navbar {
  import opened Wrappers
  import opened Text

  datatype NavLink = NavLink(href: string, caption: string, active: bool)

  /** A link, active when the current location is its target. */
  function Link(href: string, caption: string, location: string): NavLink {
    NavLink(href, caption, location == href)
  }

  function Hrefs(links: seq<NavLink>): (r: seq<string>)
    ensures |r| == |links| && forall i :: 0 <= i < |links| ==> r[i] == links[i].href
  {
    if links == [] then [] else [links[0].href] + Hrefs(links[1..])
  }

  function Labels(links: seq<NavLink>): (r: seq<string>)
    ensures |r| == |links| && forall i :: 0 <= i < |links| ==> r[i] == links[i].caption
  {
    if links == [] then [] else [links[0].caption] + Labels(links[1..])
  }

  /**
   * `getNavLinks`: `role` is the signed-in user's role, `None` when nobody
   * is signed in. Guests see Home and Impact; donors, NGO users and admins
   * their own pages; any other role nothing.
   */
  function NavLinks(role: Option<string>, location: string): (r: seq<NavLink>)
    ensures forall i :: 0 <= i < |r| ==> (r[i].active <==> r[i].href == location)
    ensures role.None? ==> Hrefs(r) == ["/", "/impact"] && Labels(r) == ["Home", "Impact"]
    ensures role == Some("donor") ==>
      && Hrefs(r) == ["/donor/dashboard", "/donor/add-donation", "/donor/track-donations", "/impact"]
      && Labels(r) == ["Dashboard", "Add Donation", "Track", "Impact"]
    ensures role == Some("ngo") ==>
      Hrefs(r) == ["/ngo/dashboard", "/ngo/profile", "/impact"] && Labels(r) == ["Dashboard", "Profile", "Impact"]
    ensures role == Some("admin") ==>
      Hrefs(r) == ["/admin/dashboard", "/impact"] && Labels(r) == ["Dashboard", "Analytics"]
    ensures role.Some? && role.value !in ["donor", "ngo", "admin"] ==> r == []
  {
    match role
    case None => [Link("/", "Home", location), Link("/impact", "Impact", location)]
    case Some(rl) =>
      if rl == "donor" then
        [ Link("/donor/dashboard", "Dashboard", location), Link("/donor/add-donation", "Add Donation", location),
          Link("/donor/track-donations", "Track", location), Link("/impact", "Impact", location) ]
      else if rl == "ngo" then
        [ Link("/ngo/dashboard", "Dashboard", location), Link("/ngo/profile", "Profile", location),
          Link("/impact", "Impact", location) ]
      else if rl == "admin" then
        [ Link("/admin/dashboard", "Dashboard", location), Link("/impact", "Analytics", location) ]
      else []
  }

  /** No two links of a menu share a target, so at most one link is active. */
  lemma AtMostOneActive(role: Option<string>, location: string, i: nat, j: nat)
    requires i < j < |NavLinks(role, location)|
    ensures !(NavLinks(role, location)[i].active && NavLinks(role, location)[j].active)
  {
    var hs := Hrefs(NavLinks(role, location));
    assert hs[i] != hs[j];
  }

  /** Everyone who is offered a menu at all can reach the impact page, as its last link. */
  lemma ImpactAlwaysLast(role: Option<string>, location: string)
    requires role.None? || role.value in ["donor", "ngo", "admin"]
    ensures var links := NavLinks(role, location); |links| >= 2 && links[|links| - 1].href == "/impact"
  {
    var hs := Hrefs(NavLinks(role, location));
    assert hs[|hs| - 1] == "/impact";
  }

  /** `.map(word => word[0]).join("")`: the first character of each word; an empty word contributes nothing. */
  function FirstLetters(words: seq<string>): string {
    if words == [] then []
    else (if words[0] == [] then [] else [words[0][0]]) + FirstLetters(words[1..])
  }

  /**
   * The characters of `s` that start a word, scanning left to right:
   * a non-space character at the start or after a space.
   */
  function WordStarts(s: string, afterSpace: bool): string {
    if s == [] then []
    else (if s[0] != ' ' && afterSpace then [s[0]] else []) + WordStarts(s[1..], s[0] == ' ')
  }

  lemma {:induction false} WordStartsAppend(a: string, b: string, afterSpace: bool)
    ensures WordStarts(a + b, afterSpace) == WordStarts(a, afterSpace) + WordStarts(b, if a == [] then afterSpace else a[|a| - 1] == ' ')
    decreases |a|
  {
    if a == [] {
      assert a + b == b;
    } else {
      assert (a + b)[1..] == a[1..] + b;
      WordStartsAppend(a[1..], b, a[0] == ' ');
      assert a[1..] != [] ==> a[1..][|a[1..]| - 1] == a[|a| - 1];
      var head := if a[0] != ' ' && afterSpace then [a[0]] else [];
      assert WordStarts(a, afterSpace) == head + WordStarts(a[1..], a[0] == ' ');
    }
  }

  lemma {:induction false} WordStartsOfWord(w: string, afterSpace: bool)
    requires ' ' !in w
    ensures WordStarts(w, afterSpace) == if w != [] && afterSpace then [w[0]] else []
    decreases |w|
  {
    if w != [] {
      WordStartsOfWord(w[1..], false);
    }
  }

  /** A word and a space in front of `rest` contribute the word's first letter, and `rest` starts afresh. */
  lemma WordStartsAfterWord(w: string, rest: string)
    requires ' ' !in w
    ensures WordStarts(w + ([' '] + rest), true) == (if w == [] then [] else [w[0]]) + WordStarts(rest, true)
  {
    WordStartsAppend(w, [' '] + rest, true);
    WordStartsOfWord(w, true);
    assert ([' '] + rest)[1..] == rest;
    var flag := if w == [] then true else w[|w| - 1] == ' ';
    assert WordStarts([' '] + rest, flag) == WordStarts(rest, true);
  }

  /** The first letters of the pieces of `split(" ")` are exactly the characters that start a word. */
  lemma {:induction false} FirstLettersAreWordStarts(s: string)
    ensures FirstLetters(Split(s, ' ')) == WordStarts(s, true)
    decreases |s|
  {
    match IndexOf(s, ' ')
    case None =>
      WordStartsOfWord(s, true);
      assert Split(s, ' ') == [s];
      assert FirstLetters([s]) == (if s == [] then [] else [s[0]]) + FirstLetters([]);
    case Some(i) =>
      var w, rest := s[..i], s[i + 1..];
      assert s == w + ([' '] + rest);
      WordStartsAfterWord(w, rest);
      FirstLettersAreWordStarts(rest);
      var pieces := Split(s, ' ');
      assert pieces == [w] + Split(rest, ' ');
      assert pieces[1..] == Split(rest, ' ');
  }

  /**
   * `getUserInitials`: the upper-cased first letters of the words of the
   * name, at most two of them.
   */
  function UserInitials(name: string): (r: string)
    ensures |r| <= 2
    ensures r == Prefix(ToUpper(WordStarts(name, true)), 2)
    ensures forall i :: 0 <= i < |r| ==> r[i] == UpperChar(WordStarts(name, true)[i])
  {
    FirstLettersAreWordStarts(name);
    Prefix(ToUpper(FirstLetters(Split(name, ' '))), 2)
  }
}
