/** The sidebar's "Quick Tasks" links: a Google Calendar event template URL
    built from a title, a location and details. */
module Calendar {
  import opened Text

  const CalendarBase: string := "https://calendar.google.com" + "/calendar/render" + "?action=TEMPLATE"

  /** A URL query value with every space written as '+'. */
  function PlusForSpaces(s: string): string
  {
    ReplaceChar(s, ' ', '+')
  }

  /** The fixed parts of a link hold no space. */
  lemma FixedPartsHaveNoSpace()
    ensures ' ' !in CalendarBase + "&text="
    ensures ' ' !in "&location=" && ' ' !in "&details="
  {
  }

  /** The event-template link for `title`, at `location`, with `details`. */
  function CalendarLink(title: string, location: string := "Coop", details: string := ""): (url: string)
    ensures CalendarBase <= url
    ensures ' ' !in url
  {
    var head := CalendarBase + "&text=";
    var t, l, d := PlusForSpaces(title), PlusForSpaces(location), PlusForSpaces(details);
    FixedPartsHaveNoSpace();
    ReplaceCharRemovesAll(title, ' ', '+');
    ReplaceCharRemovesAll(location, ' ', '+');
    ReplaceCharRemovesAll(details, ' ', '+');
    var u1 := head + t;
    var u2 := u1 + "&location=";
    var u3 := u2 + l;
    var u4 := u3 + "&details=";
    assert ' ' !in u4;
    u4 + d
  }

  /** Encoding the three fields one by one is the same as encoding the whole
      unencoded URL, since the fixed parts hold no spaces. */
  lemma CalendarLinkEncodesWholeUrl(title: string, location: string, details: string)
    ensures CalendarLink(title, location, details)
         == PlusForSpaces(CalendarBase + "&text=" + title + "&location=" + location + "&details=" + details)
  {
    var p1, p2, p3 := CalendarBase + "&text=", "&location=", "&details=";
    FixedPartsHaveNoSpace();
    ReplaceCharAbsent(p1, ' ', '+');
    ReplaceCharAbsent(p2, ' ', '+');
    ReplaceCharAbsent(p3, ' ', '+');
    var u1 := p1 + title;
    var u2 := u1 + p2;
    var u3 := u2 + location;
    var u4 := u3 + p3;
    ReplaceCharAppend(p1, title, ' ', '+');
    ReplaceCharAppend(u1, p2, ' ', '+');
    ReplaceCharAppend(u2, location, ' ', '+');
    ReplaceCharAppend(u3, p3, ' ', '+');
    ReplaceCharAppend(u4, details, ' ', '+');
  }

  /** Left out, the location is "Coop" and the details are empty. */
  lemma CalendarLinkDefaults(title: string)
    ensures CalendarLink(title) == CalendarBase + "&text=" + PlusForSpaces(title) + "&location=Coop&details="
  {
    ReplaceCharAbsent("Coop", ' ', '+');
  }

  /** A title without '+' can be read back from its encoding by turning '+' into spaces. */
  lemma TitleRecoverable(title: string)
    requires '+' !in title
    ensures ReplaceChar(PlusForSpaces(title), '+', ' ') == title
  {
    ReplaceCharRoundTrip(title, ' ', '+');
  }
}
