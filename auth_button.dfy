/**
 * The header's account control: a sign-in link when logged out, otherwise an
 * avatar menu with initials, the signed-in name and a logout link.
 */
module AuthButton {
  import opened Wrappers
  import opened Js

  const SignInHref := "/api/auth/jira/redirect"
  const LogoutHref := "/api/auth/jira/logout"

  /**
   * `pieces.map(n => n[0]).join('')`: the first character of every piece; an
   * empty piece gives `undefined`, which `join` renders as nothing.
   */
  function FirstChars(pieces: seq<string>): (chars: string)
    ensures |chars| <= |pieces|
    decreases |pieces|
  {
    if |pieces| == 0 then ""
    else (if |pieces[0]| == 0 then "" else [pieces[0][0]]) + FirstChars(pieces[1..])
  }

  /** The initials: "U" for a falsy name, else the upper-cased first characters of its space-separated words. */
  function Initials(userName: Option<string>): (initials: string)
    ensures !Truthy(userName) ==> initials == "U"
    ensures Truthy(userName) ==> |initials| <= |Split(userName.value, ' ')|
  {
    if Truthy(userName) then ToUpper(FirstChars(Split(userName.value, ' '))) else "U"
  }

  /** The number of words: pieces that are not empty. */
  function Words(pieces: seq<string>): nat
    decreases |pieces|
  {
    if |pieces| == 0 then 0 else (if |pieces[0]| == 0 then 0 else 1) + Words(pieces[1..])
  }

  /** One initial per non-empty piece: repeated spaces add none. */
  lemma {:induction false} OneInitialPerWord(pieces: seq<string>)
    ensures |FirstChars(pieces)| == Words(pieces)
    decreases |pieces|
  {
    if |pieces| > 0 {
      OneInitialPerWord(pieces[1..]);
    }
  }

  /** Splitting a string with no separator in it gives the string itself. */
  lemma {:induction false} SplitWithoutSeparator(s: string, sep: char)
    requires forall i :: 0 <= i < |s| ==> s[i] != sep
    ensures Split(s, sep) == [s]
    decreases |s|
  {
    if |s| > 0 {
      SplitWithoutSeparator(s[1..], sep);
      assert [s[0]] + s[1..] == s;
    }
  }

  /** A one-word name gives its first letter, upper-cased. */
  lemma OneWordInitial(name: string)
    requires |name| > 0 && forall i :: 0 <= i < |name| ==> name[i] != ' '
    ensures Initials(Some(name)) == [UpperChar(name[0])]
  {
    SplitWithoutSeparator(name, ' ');
    assert FirstChars([name]) == [name[0]] + FirstChars([]);
  }

  /** A separator-free prefix and the separator split off as the first piece. */
  lemma {:induction false} SplitFirstWord(a: string, sep: char, b: string)
    requires forall i :: 0 <= i < |a| ==> a[i] != sep
    ensures Split(a + [sep] + b, sep) == [a] + Split(b, sep)
    decreases |a|
  {
    if |a| == 0 {
      assert a + [sep] + b == [sep] + b;
      assert ([sep] + b)[1..] == b;
    } else {
      SplitFirstWord(a[1..], sep, b);
      assert (a + [sep] + b)[1..] == a[1..] + [sep] + b;
      assert [a[0]] + a[1..] == a;
    }
  }

  /** "Ada Lovelace" gives "AL": one initial per word, upper-cased. */
  lemma TwoWordInitials(first: string, last: string)
    requires |first| > 0 && |last| > 0
    requires forall i :: 0 <= i < |first| ==> first[i] != ' '
    requires forall i :: 0 <= i < |last| ==> last[i] != ' '
    ensures Initials(Some(first + " " + last)) == [UpperChar(first[0]), UpperChar(last[0])]
  {
    SplitFirstWord(first, ' ', last);
    SplitWithoutSeparator(last, ' ');
    assert first + " " + last == first + [' '] + last;
    assert FirstChars([first, last]) == [first[0]] + FirstChars([last]);
    assert FirstChars([last]) == [last[0]] + FirstChars([]);
  }

  /** What the fallback circle shows: initials only when an avatar URL is set. */
  datatype Fallback = InitialsText(text: string) | UserCircleIcon

  datatype AuthView =
    | SignInLink(href: string)
    | AccountMenu(
        avatar: Option<string>,
        altText: string,
        fallback: Fallback,
        signedInAs: Option<string>,
        logoutHref: string)

  function View(isLoggedIn: bool, userName: Option<string>, userAvatar: Option<string>): (v: AuthView)
    ensures !isLoggedIn <==> v == SignInLink(SignInHref)
    ensures isLoggedIn ==> v.AccountMenu? && v.logoutHref == LogoutHref
    ensures isLoggedIn ==> (v.avatar.Some? <==> Truthy(userAvatar))
    ensures isLoggedIn ==> (v.fallback == InitialsText(Initials(userName)) <==> Truthy(userAvatar))
    ensures isLoggedIn && !Truthy(userAvatar) ==> v.fallback == UserCircleIcon
    ensures isLoggedIn ==> (v.signedInAs.Some? <==> Truthy(userName))
    ensures isLoggedIn && Truthy(userName) ==> v.signedInAs == userName && v.altText == userName.value
    ensures isLoggedIn && !Truthy(userName) ==> v.altText == "User"
  {
    if !isLoggedIn then SignInLink(SignInHref)
    else
      AccountMenu(
        if Truthy(userAvatar) then userAvatar else None,
        OrElse(userName, "User"),
        if Truthy(userAvatar) then InitialsText(Initials(userName)) else UserCircleIcon,
        if Truthy(userName) then userName else None,
        LogoutHref)
  }
}
