/** The dashboard's header (src/components/dashboard/DashboardHeader.tsx):
    the user's avatar, which falls back to the initials of the name, and the
    notification badge. */
module DashboardHeader {
  import opened Common

  /** `s.split(" ")`: the pieces between the spaces, empty ones included;
      there is always at least one piece. */
  function Split(s: string): (pieces: seq<string>)
    ensures |pieces| >= 1
    ensures forall i :: 0 <= i < |pieces| ==> ' ' !in pieces[i]
  {
    if s == [] then [""]
    else if s[0] == ' ' then [""] + Split(s[1..])
    else
      var rest := Split(s[1..]);
      [[s[0]] + rest[0]] + rest[1..]
  }

  /** `pieces.join(" ")`. */
  function Join(pieces: seq<string>): string
    requires |pieces| >= 1
  {
    if |pieces| == 1 then pieces[0] else pieces[0] + " " + Join(pieces[1..])
  }

  /** Splitting on spaces loses nothing: joining the pieces back gives the
      name. */
  lemma {:induction false} JoinSplit(s: string)
    ensures Join(Split(s)) == s
  {
    if s == [] {
    } else if s[0] == ' ' {
      JoinSplit(s[1..]);
      assert s == " " + s[1..];
    } else {
      JoinSplit(s[1..]);
      var rest := Split(s[1..]);
      if |rest| == 1 {
        assert s == [s[0]] + rest[0];
      } else {
        assert Join(rest) == rest[0] + " " + Join(rest[1..]);
        assert s == ([s[0]] + rest[0]) + " " + Join(rest[1..]);
      }
    }
  }

  /** `.map((name) => name[0]).join("")`: the first character of each
      piece; an empty piece gives `undefined`, which `join` renders as
      nothing. */
  function FirstChars(pieces: seq<string>): (r: string)
    ensures |r| <= |pieces|
  {
    if pieces == [] then []
    else (if pieces[0] == [] then [] else [pieces[0][0]]) + FirstChars(pieces[1..])
  }

  /** The fallback text of the avatar: the first letter of every word. */
  function Initials(userName: string): (r: string)
    ensures r == WordStarts(userName, true)
    ensures ' ' !in r
  {
    FirstCharsAreWordStarts(userName);
    FirstChars(Split(userName))
  }

  /** An independent reading of the initials: the characters of the name
      that are not spaces and come first or right after a space, in order.
      `atStart` says whether the previous character was a space (or there
      was none). */
  function WordStarts(s: string, atStart: bool): (r: string)
    ensures ' ' !in r
  {
    if s == [] then []
    else (if atStart && s[0] != ' ' then [s[0]] else []) + WordStarts(s[1..], s[0] == ' ')
  }

  /** The first characters of all pieces are the word starts; those of all
      pieces but the first are the word starts after the first character of
      a word. */
  lemma {:induction false} FirstCharsAreWordStarts(s: string)
    ensures FirstChars(Split(s)) == WordStarts(s, true)
    ensures FirstChars(Split(s)[1..]) == WordStarts(s, false)
  {
    if s == [] {
    } else if s[0] == ' ' {
      FirstCharsAreWordStarts(s[1..]);
      var ps := Split(s);
      assert ps[1..] == Split(s[1..]);
    } else {
      FirstCharsAreWordStarts(s[1..]);
      var rest := Split(s[1..]);
      var ps := Split(s);
      assert ps[0] == [s[0]] + rest[0];
      assert ps[1..] == rest[1..];
      assert FirstChars(rest) == (if rest[0] == [] then [] else [rest[0][0]]) + FirstChars(rest[1..]);
    }
  }

  /** The initials are the first letter of every word of the name: spaces
      (leading, trailing or doubled) contribute nothing, and no initial is a
      space. */
  lemma InitialsAreWordStarts(userName: string)
    ensures Initials(userName) == WordStarts(userName, true)
    ensures ' ' !in Initials(userName)
  {
    FirstCharsAreWordStarts(userName);
  }

  /** Inside a word no character starts a new one. */
  lemma {:induction false} SkipWord(w: string, rest: string)
    requires ' ' !in w
    ensures WordStarts(w + rest, false) == WordStarts(rest, false)
  {
    if w != [] {
      assert w[0] in w && (w + rest)[0] == w[0];
      assert forall c :: c in w[1..] ==> c in w;
      assert (w + rest)[1..] == w[1..] + rest;
      assert WordStarts(w + rest, false) == WordStarts(w[1..] + rest, false);
      SkipWord(w[1..], rest);
    } else {
      assert w + rest == rest;
    }
  }

  /** A name of two words separated by one space has two initials. */
  lemma TwoWordInitials(first: string, last: string)
    requires first != [] && last != [] && ' ' !in first && ' ' !in last
    ensures Initials(first + " " + last) == [first[0], last[0]]
  {
    var s := first + " " + last;
    InitialsAreWordStarts(s);
    assert s[1..] == first[1..] + (" " + last);
    SkipWord(first[1..], " " + last);
    assert (" " + last)[1..] == last;
    assert last[1..] + [] == last[1..];
    SkipWord(last[1..], []);
  }

  /** The default user "Budi Santoso" is shown as "BS". */
  lemma DefaultInitials()
    ensures Initials("Budi Santoso") == "BS"
  {
    assert "Budi Santoso" == "Budi" + " " + "Santoso";
    TwoWordInitials("Budi", "Santoso");
  }

  /** What the avatar shows. */
  datatype AvatarView = Image(src: string) | Fallback(text: string)

  /** The picture when there is one, otherwise the initials. */
  function Avatar(userName: string, userAvatar: string): (v: AvatarView)
    ensures v.Image? <==> userAvatar != ""
    ensures v.Image? ==> v.src == userAvatar
    ensures v.Fallback? ==> v.text == WordStarts(userName, true)
  {
    InitialsAreWordStarts(userName);
    if userAvatar != "" then Image(userAvatar) else Fallback(Initials(userName))
  }

  /** The bell's badge: the count, shown only when positive. */
  function NotificationBadge(notificationCount: int): (badge: Option<int>)
    ensures badge.Some? <==> notificationCount > 0
    ensures badge.Some? ==> badge.value == notificationCount
  {
    if notificationCount > 0 then Some(notificationCount) else None
  }
}
