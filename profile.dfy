/**
  The profile screen (app/profile.tsx): the gender label, the local-URI
  test and the conditional image upload, the edit form loaded from the
  session user, the round trips between stored values and form text
  (social links, interests, website, birth date), and the save procedure
  that uploads changed images, builds the payload and merges the answer
  into the session.
*/
module Profile {
  import opened Wrappers
  import opened Entities
  import Strings
  import Session

  const NotSpecified := "No especificado"
  const FacebookPrefix := "https://facebook.com/"
  const InstagramPrefix := "https://instagram.com/"
  const TwitterPrefix := "https://twitter.com/"
  const LinkedinPrefix := "https://linkedin.com/in/"
  const InterestsSeparator := ", "
  const DefaultProfileError := "No se pudo actualizar el perfil"

  // ---------------------------------------------------------------------
  // Gender

  datatype GenderOption = GenderOption(value: string, text: string)

  const GenderOptions: seq<GenderOption> := [
    GenderOption("male", "Masculino"),
    GenderOption("female", "Femenino"),
    GenderOption("other", "Otro"),
    GenderOption("prefer-not-to-say", "Prefiero no decirlo")]

  /** `options.find((g) => g.value === value)?.text`. */
  function FindLabel(options: seq<GenderOption>, value: string): (r: Option<string>)
    ensures r.None? <==> forall i :: 0 <= i < |options| ==> options[i].value != value
    ensures r.Some? ==> exists i :: 0 <= i < |options| && options[i].value == value && r.value == options[i].text
    ensures forall i ::
      (0 <= i < |options| && options[i].value == value && (forall j :: 0 <= j < i ==> options[j].value != value))
      ==> r == Some(options[i].text)
  {
    if options == [] then None
    else if options[0].value == value then Some(options[0].text)
    else
      var r := FindLabel(options[1..], value);
      assert forall i :: 1 <= i < |options| ==> options[i] == options[1..][i - 1];
      r
  }

  /** `getGenderLabel`: the option's label, or "No especificado" for an
      empty or unknown value. */
  function GenderLabel(value: Option<string>): (r: string)
    ensures r == NotSpecified <==> !Truthy(value) || forall i :: 0 <= i < |GenderOptions| ==> GenderOptions[i].value != value.value
    ensures forall i :: 0 <= i < |GenderOptions| && Truthy(value) && GenderOptions[i].value == value.value ==>
      r == GenderOptions[i].text
  {
    assert forall i :: 0 <= i < |GenderOptions| ==> GenderOptions[i].text != NotSpecified;
    assert forall i, j :: 0 <= j < i < |GenderOptions| ==> GenderOptions[j].value != GenderOptions[i].value;
    if !Truthy(value) then NotSpecified
    else
      var found := FindLabel(GenderOptions, value.value);
      if found.Some? then found.value else NotSpecified
  }

  // ---------------------------------------------------------------------
  // Images

  /** `isLocalUri`: the `file://`, `content://` and `ph://` tests add
      nothing to "not `http://` and not `https://`". */
  function IsLocalUri(uri: string): (r: bool)
    ensures r <==> !Strings.StartsWith(uri, "http://") && !Strings.StartsWith(uri, "https://")
  {
    var schemeLocal := Strings.StartsWith(uri, "file://") || Strings.StartsWith(uri, "content://") || Strings.StartsWith(uri, "ph://");
    assert schemeLocal ==> !Strings.StartsWith(uri, "http://") && !Strings.StartsWith(uri, "https://") by {
      if schemeLocal {
        assert uri[0] != 'h';
      }
    }
    schemeLocal || (!Strings.StartsWith(uri, "http://") && !Strings.StartsWith(uri, "https://"))
  }

  datatype ImageKind = Avatar | CoverPhoto

  /** How every image alert of the save ends. */
  const RetryPrompt := ". Intenta de nuevo."

  /** The error `uploadImageIfNeeded` throws for each kind. The save shows
      its own alert instead, so this text never reaches the user. */
  function UploadFailure(kind: ImageKind): (r: string)
    ensures Strings.StartsWith(r, "No se pudo subir la ")
    ensures r != AbortMessage(kind)
  {
    match kind
    case Avatar => "No se pudo subir la foto de perfil"
    case CoverPhoto => "No se pudo subir la portada"
  }

  /** Whether the upload service was called, and the URL or the error. */
  datatype ImageUpload = ImageUpload(uploaded: bool, result: Result<string, string>)

  /** `uploadImageIfNeeded`: a server URI comes back unchanged with no
      upload; a local one is uploaded, and a failed upload becomes that
      kind's error. */
  function UploadImageIfNeeded(uri: string, kind: ImageKind, upload: string -> Option<string>): (r: ImageUpload)
    ensures r.uploaded <==> IsLocalUri(uri)
    ensures !IsLocalUri(uri) ==> r.result == Ok(uri)
    ensures IsLocalUri(uri) && upload(uri).Some? ==> r.result == Ok(upload(uri).value)
    ensures IsLocalUri(uri) && upload(uri).None? ==> r.result == Err(UploadFailure(kind))
  {
    if !IsLocalUri(uri) then ImageUpload(false, Ok(uri))
    else match upload(uri)
      case Some(url) => ImageUpload(true, Ok(url))
      case None => ImageUpload(true, Err(UploadFailure(kind)))
  }

  // ---------------------------------------------------------------------
  // Social links

  /** The saved link for a handle: `prefix + handle`, or nothing for "". */
  function SocialUrl(prefix: string, handle: string): (r: Option<string>)
    ensures r.None? <==> handle == ""
    ensures r.Some? ==> Strings.StartsWith(r.value, prefix) && r.value[|prefix|..] == handle
  {
    if handle != "" then Some(prefix + handle) else None
  }

  /** The handle shown for a stored link: the first occurrence of the prefix
      removed, or "" without a link. */
  function StripSocial(prefix: string, url: Option<string>): (r: string)
    ensures url.None? ==> r == ""
    ensures url.Some? && Strings.StartsWith(url.value, prefix) ==> r == url.value[|prefix|..]
    ensures url.Some? && Strings.IndexOf(url.value, prefix).None? ==> r == url.value
    ensures url.Some? && Strings.IndexOf(url.value, prefix).Some? ==>
      var i := Strings.IndexOf(url.value, prefix).value;
      r == url.value[..i] + url.value[i + |prefix|..]
  {
    if url.None? then ""
    else
      var u := url.value;
      Strings.RemoveFirst(u, prefix);
      Strings.RemoveLeading(u, prefix);
      Strings.ReplaceFirst(u, prefix, "")
  }

  /** Saving a handle and loading it back gives the handle. */
  lemma SocialRoundTrip(prefix: string, handle: string)
    ensures StripSocial(prefix, SocialUrl(prefix, handle)) == handle
  {
  }

  /** Loading a stored link and saving it back gives the link, when it
      carries the prefix and a handle. */
  lemma SocialLinkRoundTrip(prefix: string, url: string)
    requires Strings.StartsWith(url, prefix) && |url| > |prefix|
    ensures SocialUrl(prefix, StripSocial(prefix, Some(url))) == Some(url)
  {
    assert url == prefix + url[|prefix|..];
  }

  // ---------------------------------------------------------------------
  // Interests

  /** What the interests list may hold for its text to read back. */
  predicate IsCleanInterest(x: string) {
    x != "" && Strings.IsTrimmed(x) && ',' !in x
  }

  /** `.map((v) => v.trim()).filter((v) => v.length > 0)`. */
  function CleanPieces(pieces: seq<string>): (r: seq<string>)
    requires forall k :: 0 <= k < |pieces| ==> ',' !in pieces[k]
    ensures |r| <= |pieces|
    ensures forall k :: 0 <= k < |r| ==> IsCleanInterest(r[k])
  {
    if pieces == [] then []
    else
      var t := Strings.Trim(pieces[0]);
      Strings.TrimKeepsAbsent(pieces[0], ',');
      var head := if |t| > 0 then [t] else [];
      var rest := CleanPieces(pieces[1..]);
      CleanAppend(head, rest);
      head + rest
  }

  lemma CleanAppend(a: seq<string>, b: seq<string>)
    requires forall k :: 0 <= k < |a| ==> IsCleanInterest(a[k])
    requires forall k :: 0 <= k < |b| ==> IsCleanInterest(b[k])
    ensures forall k :: 0 <= k < |a + b| ==> IsCleanInterest((a + b)[k])
  {
    forall k | 0 <= k < |a + b|
      ensures IsCleanInterest((a + b)[k])
    {
      if k < |a| {
        assert (a + b)[k] == a[k];
      } else {
        assert (a + b)[k] == b[k - |a|];
      }
    }
  }

  /** The interests list saved from the form's text. */
  function ParseInterests(text: string): (r: seq<string>)
    ensures forall k :: 0 <= k < |r| ==> IsCleanInterest(r[k])
  {
    CleanPieces(Strings.Split(text, ','))
  }

  /** The form's text for a stored list: `interests.join(", ")`, or "". */
  function InterestsText(interests: Option<seq<string>>): (r: string)
    ensures interests.None? || interests.value == [] ==> r == ""
    ensures interests.Some? && |interests.value| == 1 ==> r == interests.value[0]
    ensures interests.Some? && (forall k :: 0 <= k < |interests.value| ==> IsCleanInterest(interests.value[k])) ==>
      ParseInterests(r) == interests.value
  {
    if interests.Some? then
      if forall k :: 0 <= k < |interests.value| ==> IsCleanInterest(interests.value[k]) then
        ParseJoinRoundTrip(interests.value);
        Strings.Join(interests.value, InterestsSeparator)
      else Strings.Join(interests.value, InterestsSeparator)
    else ""
  }

  /** `interests` in the payload: the parsed list, or nothing when empty. */
  function InterestsForSave(text: string): (r: Option<seq<string>>)
    ensures r.Some? ==> r.value != [] && r.value == ParseInterests(text)
    ensures r.None? ==> ParseInterests(text) == []
  {
    var parsed := ParseInterests(text);
    if |parsed| > 0 then Some(parsed) else None
  }

  /** One step of `CleanPieces` on a list built as head, then the rest. */
  lemma CleanCons(head: string, rest: seq<string>)
    requires ',' !in head
    requires forall k :: 0 <= k < |rest| ==> ',' !in rest[k]
    ensures CleanPieces([head] + rest) ==
      (if |Strings.Trim(head)| > 0 then [Strings.Trim(head)] else []) + CleanPieces(rest)
  {
    assert ([head] + rest)[0] == head && ([head] + rest)[1..] == rest;
  }

  /** The joined text of two or more interests, cut at its first comma. */
  lemma JoinCons(s: string, pre: string, xs: seq<string>)
    requires |xs| > 1 && s == pre + Strings.Join(xs, InterestsSeparator)
    ensures s == (pre + xs[0]) + [','] + (" " + Strings.Join(xs[1..], InterestsSeparator))
  {
    assert Strings.Join(xs, InterestsSeparator) == xs[0] + InterestsSeparator + Strings.Join(xs[1..], InterestsSeparator);
  }

  /** The first comma of `s` ends its first piece. */
  lemma SplitAtComma(s: string, head: string, rest: string)
    requires ',' !in head && s == head + [','] + rest
    ensures Strings.Split(s, ',') == [head] + Strings.Split(rest, ',')
  {
    Strings.SplitAt(head, rest, ',');
  }

  /** A single comma-free piece. */
  lemma SplitNoComma(s: string)
    requires ',' !in s
    ensures Strings.Split(s, ',') == [s]
  {
  }

  /** An all-whitespace text holds no interest. */
  lemma ParseBlank(s: string)
    requires Strings.AllWhitespace(s)
    ensures CleanPieces(Strings.Split(s, ',')) == []
  {
    assert ',' !in s by {
      assert forall k :: 0 <= k < |s| ==> Strings.IsWhitespace(s[k]);
    }
    SplitNoComma(s);
    CleanCons(s, []);
  }

  /** A padded single interest. */
  lemma ParseSingle(s: string, pre: string, x: string)
    requires Strings.AllWhitespace(pre) && IsCleanInterest(x) && s == pre + x
    ensures CleanPieces(Strings.Split(s, ',')) == [x]
  {
    assert ',' !in pre by {
      assert forall k :: 0 <= k < |pre| ==> Strings.IsWhitespace(pre[k]);
    }
    assert ',' !in s;
    SplitNoComma(s);
    Strings.TrimPadded(pre, x);
    CleanCons(s, []);
  }

  /** A padded interest, a comma, then the rest of the text. */
  lemma ParseFirst(s: string, pre: string, x: string, rest: string)
    requires Strings.AllWhitespace(pre) && IsCleanInterest(x) && s == (pre + x) + [','] + rest
    ensures CleanPieces(Strings.Split(s, ',')) == [x] + CleanPieces(Strings.Split(rest, ','))
  {
    assert ',' !in pre by {
      assert forall k :: 0 <= k < |pre| ==> Strings.IsWhitespace(pre[k]);
    }
    assert ',' !in pre + x;
    SplitAtComma(s, pre + x, rest);
    Strings.TrimPadded(pre, x);
    CleanCons(pre + x, Strings.Split(rest, ','));
  }

  /** The step of the induction, once the rest of the text is known to
      parse to the tail. */
  lemma ParseMore(s: string, pre: string, x: string, rest: string, tail: seq<string>, xs: seq<string>)
    requires Strings.AllWhitespace(pre) && IsCleanInterest(x) && s == (pre + x) + [','] + rest
    requires CleanPieces(Strings.Split(rest, ',')) == tail
    requires xs == [x] + tail
    ensures CleanPieces(Strings.Split(s, ',')) == xs
  {
    ParseFirst(s, pre, x, rest);
  }

  lemma {:induction false} ParsePadded(s: string, pre: string, xs: seq<string>)
    requires Strings.AllWhitespace(pre)
    requires forall k :: 0 <= k < |xs| ==> IsCleanInterest(xs[k])
    requires s == pre + Strings.Join(xs, InterestsSeparator)
    ensures CleanPieces(Strings.Split(s, ',')) == xs
    decreases |xs|
  {
    if xs == [] {
      assert s == pre;
      ParseBlank(s);
    } else if |xs| == 1 {
      ParseSingle(s, pre, xs[0]);
    } else {
      var tail := xs[1..];
      assert forall k :: 0 <= k < |tail| ==> tail[k] == xs[k + 1];
      var rest := " " + Strings.Join(tail, InterestsSeparator);
      ParsePadded(rest, " ", tail);
      JoinCons(s, pre, xs);
      ParseMore(s, pre, xs[0], rest, tail, xs);
    }
  }

  /** Joining a clean list and parsing the text gives the list back. */
  lemma ParseJoinRoundTrip(xs: seq<string>)
    requires forall k :: 0 <= k < |xs| ==> IsCleanInterest(xs[k])
    ensures ParseInterests(Strings.Join(xs, InterestsSeparator)) == xs
  {
    JoinedPieces(xs);
  }

  lemma JoinedPieces(xs: seq<string>)
    requires forall k :: 0 <= k < |xs| ==> IsCleanInterest(xs[k])
    ensures CleanPieces(Strings.Split(Strings.Join(xs, InterestsSeparator), ',')) == xs
  {
    var text := Strings.Join(xs, InterestsSeparator);
    EmptyPrefix(text);
    ParsePadded(text, "", xs);
  }

  lemma EmptyPrefix(s: string)
    ensures "" + s == s
  {
  }

  /** Parsing is stable: the text of a parsed list parses to the same list. */
  lemma ParseIsStable(text: string)
    ensures ParseInterests(InterestsText(Some(ParseInterests(text)))) == ParseInterests(text)
  {
    ParseJoinRoundTrip(ParseInterests(text));
  }

  // ---------------------------------------------------------------------
  // Website

  /** `website` in the payload: nothing for "", the text itself when it
      starts with "http", otherwise the text behind `https://`. */
  function WebsiteForSave(website: string): (r: Option<string>)
    ensures r.None? <==> website == ""
    ensures r.Some? ==> Strings.StartsWith(r.value, "http")
    ensures Strings.StartsWith(website, "http") ==> r == Some(website)
    ensures website != "" && !Strings.StartsWith(website, "http") ==> r == Some("https://" + website)
  {
    if website == "" then None
    else if Strings.StartsWith(website, "http") then Some(website)
    else
      assert ("https://" + website)[..4] == "http";
      Some("https://" + website)
  }

  /** Saving the saved website again changes nothing. */
  lemma WebsiteIdempotent(website: string)
    requires website != ""
    ensures WebsiteForSave(WebsiteForSave(website).value) == WebsiteForSave(website)
  {
  }

  // ---------------------------------------------------------------------
  // Birth date

  /** What the date picker hands back: the year, the 0-based month and the
      day of the month. */
  datatype CalendarDate = CalendarDate(year: nat, monthIndex: nat, day: nat)

  predicate IsCalendarDate(d: CalendarDate) {
    d.monthIndex < 12 && 1 <= d.day <= 31
  }

  /** `${y}-${m}-${d}` with the 1-based month and the day padded to two
      digits. */
  function DateString(d: CalendarDate): (r: string)
    requires IsCalendarDate(d)
    ensures var y := Strings.NatToString(d.year);
      && |r| == |y| + 6 && r[..|y|] == y
      && r[|y|] == '-' && r[|y| + 3] == '-'
  {
    Strings.PaddedNumberValue(d.monthIndex + 1);
    Strings.PaddedNumberValue(d.day);
    Strings.NatToString(d.year) + "-" + Strings.PadStart2(Strings.NatToString(d.monthIndex + 1))
      + "-" + Strings.PadStart2(Strings.NatToString(d.day))
  }

  /** Three dash-separated fields: the year, then the month and the day in
      two digits each, reading back as the date. */
  predicate FieldsOfDate(parts: seq<string>, d: CalendarDate) {
    && |parts| == 3
    && Strings.AllDigits(parts[0]) && Strings.DigitsValue(parts[0]) == d.year
    && |parts[1]| == 2 && Strings.AllDigits(parts[1]) && Strings.DigitsValue(parts[1]) == d.monthIndex + 1
    && |parts[2]| == 2 && Strings.AllDigits(parts[2]) && Strings.DigitsValue(parts[2]) == d.day
  }

  /** The date string splits at its dashes into the fields of the date. */
  lemma DateStringReadsBack(d: CalendarDate)
    requires IsCalendarDate(d)
    ensures FieldsOfDate(Strings.Split(DateString(d), '-'), d)
  {
    DateFields(d, DateString(d), Strings.NatToString(d.year), Strings.PadStart2(Strings.NatToString(d.monthIndex + 1)),
      Strings.PadStart2(Strings.NatToString(d.day)));
  }

  lemma FieldsOfPadded(d: CalendarDate, y: string, m: string, dd: string)
    requires IsCalendarDate(d)
    requires y == Strings.NatToString(d.year)
    requires m == Strings.PadStart2(Strings.NatToString(d.monthIndex + 1))
    requires dd == Strings.PadStart2(Strings.NatToString(d.day))
    ensures FieldsOfDate([y, m, dd], d)
  {
    Strings.PaddedNumberValue(d.monthIndex + 1);
    Strings.PaddedNumberValue(d.day);
  }

  lemma DigitsHaveNoDash(s: string)
    requires Strings.AllDigits(s)
    ensures '-' !in s
  {
    assert forall k :: 0 <= k < |s| ==> Strings.IsDigit(s[k]);
  }

  /** Splitting three dash-free fields joined by dashes. */
  lemma SplitThree(a: string, b: string, c: string)
    requires '-' !in a && '-' !in b && '-' !in c
    ensures Strings.Split(a + "-" + b + "-" + c, '-') == [a, b, c]
  {
    assert a + "-" + b + "-" + c == a + ['-'] + (b + ['-'] + c);
    Strings.SplitAt(a, b + ['-'] + c, '-');
    Strings.SplitAt(b, c, '-');
  }

  lemma DateFields(d: CalendarDate, s: string, y: string, m: string, dd: string)
    requires IsCalendarDate(d)
    requires y == Strings.NatToString(d.year)
    requires m == Strings.PadStart2(Strings.NatToString(d.monthIndex + 1))
    requires dd == Strings.PadStart2(Strings.NatToString(d.day))
    requires s == DateString(d)
    ensures FieldsOfDate(Strings.Split(s, '-'), d)
  {
    FieldsOfPadded(d, y, m, dd);
    assert s == y + "-" + m + "-" + dd;
    DigitsHaveNoDash(y);
    DigitsHaveNoDash(m);
    DigitsHaveNoDash(dd);
    SplitThree(y, m, dd);
  }

  // ---------------------------------------------------------------------
  // The edit form and the payload

  datatype EditForm = EditForm(
    name: string, email: string, bio: string, phone: string, dateOfBirth: string, gender: string,
    occupation: string, company: string, website: string, interestsText: string,
    facebook: string, instagram: string, twitter: string, linkedin: string,
    avatar: string, coverPhoto: string)

  const BlankForm := EditForm("", "", "", "", "", "", "", "", "", "", "", "", "", "", "", "")

  /** `value || ""`. */
  function OrEmpty(o: Option<string>): (r: string)
    ensures r == "" <==> !Truthy(o)
    ensures Truthy(o) ==> r == o.value
  {
    if o.Some? then o.value else ""
  }

  /** `value || undefined`. */
  function NonEmpty(s: string): (r: Option<string>)
    ensures r.None? <==> s == ""
    ensures r.Some? ==> r.value == s
  {
    if s != "" then Some(s) else None
  }

  function SocialOf(user: User): SocialMedia {
    if user.socialMedia.Some? then user.socialMedia.value else SocialMedia(None, None, None, None)
  }

  /** The form loaded from the user (the mount effect and `handleCancelEdit`). */
  function FormFromUser(u: User): (f: EditForm)
    ensures f.name == u.name && f.email == u.email
    ensures f.bio == OrEmpty(u.bio) && f.phone == OrEmpty(u.phone)
    ensures f.dateOfBirth == OrEmpty(u.dateOfBirth) && f.gender == OrEmpty(u.gender)
    ensures f.occupation == OrEmpty(u.occupation) && f.company == OrEmpty(u.company)
    ensures f.website == OrEmpty(u.website)
    ensures f.interestsText == InterestsText(u.interests)
    ensures f.facebook == StripSocial(FacebookPrefix, SocialOf(u).facebook)
    ensures f.instagram == StripSocial(InstagramPrefix, SocialOf(u).instagram)
    ensures f.twitter == StripSocial(TwitterPrefix, SocialOf(u).twitter)
    ensures f.linkedin == StripSocial(LinkedinPrefix, SocialOf(u).linkedin)
    ensures f.avatar == OrEmpty(u.avatar) && f.coverPhoto == OrEmpty(u.coverPhoto)
  {
    var social := SocialOf(u);
    EditForm(
      u.name, u.email, OrEmpty(u.bio), OrEmpty(u.phone), OrEmpty(u.dateOfBirth), OrEmpty(u.gender),
      OrEmpty(u.occupation), OrEmpty(u.company), OrEmpty(u.website), InterestsText(u.interests),
      StripSocial(FacebookPrefix, social.facebook), StripSocial(InstagramPrefix, social.instagram),
      StripSocial(TwitterPrefix, social.twitter), StripSocial(LinkedinPrefix, social.linkedin),
      OrEmpty(u.avatar), OrEmpty(u.coverPhoto))
  }

  /** The body of `updateProfile`. */
  datatype ProfilePayload = ProfilePayload(
    name: string, bio: Option<string>, phone: Option<string>, dateOfBirth: Option<string>,
    gender: Option<string>, occupation: Option<string>, company: Option<string>,
    website: Option<string>, interests: Option<seq<string>>, socialMedia: SocialMedia,
    avatar: Option<string>, coverPhoto: Option<string>)

  /** The payload built from the form and the final image URLs. */
  function BuildPayload(form: EditForm, avatarUrl: string, coverUrl: string): (p: ProfilePayload)
    ensures p.name == form.name
    ensures p.bio == NonEmpty(form.bio) && p.phone == NonEmpty(form.phone)
    ensures p.dateOfBirth == NonEmpty(form.dateOfBirth) && p.gender == NonEmpty(form.gender)
    ensures p.occupation == NonEmpty(form.occupation) && p.company == NonEmpty(form.company)
    ensures p.website == WebsiteForSave(form.website)
    ensures p.interests == InterestsForSave(form.interestsText)
    ensures p.socialMedia.facebook == SocialUrl(FacebookPrefix, form.facebook)
    ensures p.socialMedia.instagram == SocialUrl(InstagramPrefix, form.instagram)
    ensures p.socialMedia.twitter == SocialUrl(TwitterPrefix, form.twitter)
    ensures p.socialMedia.linkedin == SocialUrl(LinkedinPrefix, form.linkedin)
    ensures p.avatar == NonEmpty(avatarUrl) && p.coverPhoto == NonEmpty(coverUrl)
  {
    ProfilePayload(
      form.name, NonEmpty(form.bio), NonEmpty(form.phone), NonEmpty(form.dateOfBirth), NonEmpty(form.gender),
      NonEmpty(form.occupation), NonEmpty(form.company), WebsiteForSave(form.website),
      InterestsForSave(form.interestsText),
      SocialMedia(SocialUrl(FacebookPrefix, form.facebook), SocialUrl(InstagramPrefix, form.instagram),
                  SocialUrl(TwitterPrefix, form.twitter), SocialUrl(LinkedinPrefix, form.linkedin)),
      NonEmpty(avatarUrl), NonEmpty(coverUrl))
  }

  /** A stored link this screen can reproduce: none, or the prefix and a
      handle. */
  predicate IsLinkOf(prefix: string, url: Option<string>) {
    url.None? || (Strings.StartsWith(url.value, prefix) && |url.value| > |prefix|)
  }

  /** A stored website that starts with "http" survives load and save. */
  lemma WebsiteLoadSave(website: Option<string>)
    requires website.None? || Strings.StartsWith(website.value, "http")
    ensures WebsiteForSave(OrEmpty(website)) == website
  {
  }

  /** A non-empty list of clean interests survives load and save. */
  lemma InterestsLoadSave(interests: Option<seq<string>>)
    requires interests.Some? ==> interests.value != [] && forall k :: 0 <= k < |interests.value| ==> IsCleanInterest(interests.value[k])
    ensures InterestsForSave(InterestsText(interests)) == interests
  {
    if interests.Some? {
      var text := Strings.Join(interests.value, InterestsSeparator);
      ParseJoinRoundTrip(interests.value);
      assert InterestsText(interests) == text;
    } else {
      EmptyInterestsText();
    }
  }

  /** An empty interests field saves no interests. */
  lemma EmptyInterestsText()
    ensures InterestsForSave("") == None
  {
    ParseBlank("");
  }

  /** A stored link with the prefix and a handle survives load and save. */
  lemma LinkLoadSave(prefix: string, url: Option<string>)
    requires IsLinkOf(prefix, url)
    ensures SocialUrl(prefix, StripSocial(prefix, url)) == url
  {
    if url.Some? {
      SocialLinkRoundTrip(prefix, url.value);
    }
  }

  /** Loading a well-formed user into the form and saving it untouched sends
      the user's own website, interests and social links back. */
  lemma LoadSaveRoundTrip(u: User)
    requires u.website.None? || Strings.StartsWith(u.website.value, "http")
    requires u.interests.Some? ==> u.interests.value != [] && forall k :: 0 <= k < |u.interests.value| ==> IsCleanInterest(u.interests.value[k])
    requires IsLinkOf(FacebookPrefix, SocialOf(u).facebook) && IsLinkOf(InstagramPrefix, SocialOf(u).instagram)
    requires IsLinkOf(TwitterPrefix, SocialOf(u).twitter) && IsLinkOf(LinkedinPrefix, SocialOf(u).linkedin)
    ensures var p := BuildPayload(FormFromUser(u), OrEmpty(u.avatar), OrEmpty(u.coverPhoto));
      && p.name == u.name
      && p.website == u.website
      && p.interests == u.interests
      && p.socialMedia == SocialOf(u)
  {
    var social := SocialOf(u);
    WebsiteLoadSave(u.website);
    InterestsLoadSave(u.interests);
    LinkLoadSave(FacebookPrefix, social.facebook);
    LinkLoadSave(InstagramPrefix, social.instagram);
    LinkLoadSave(TwitterPrefix, social.twitter);
    LinkLoadSave(LinkedinPrefix, social.linkedin);
  }

  // ---------------------------------------------------------------------
  // Saving

  /** Whether the save uploads an image: it is set and differs from the
      session user's current one. */
  function ImageChanged(formValue: string, current: Option<User>, kind: ImageKind): (r: bool)
    ensures r ==> formValue != ""
    ensures current.None? ==> (r <==> formValue != "")
    ensures current.Some? ==>
      var stored := if kind == Avatar then current.value.avatar else current.value.coverPhoto;
      (r <==> formValue != "" && stored != Some(formValue))
  {
    var stored := if current.None? then None else if kind == Avatar then current.value.avatar else current.value.coverPhoto;
    formValue != "" && stored != Some(formValue)
  }

  /** How the image step of a save ends: aborted with the alert shown, or
      ready with the final avatar and cover URLs. Both carry the URIs sent
      to the upload service, in order. */
  datatype ImagePlan =
    | Aborted(uploads: seq<string>, message: string)
    | Ready(uploads: seq<string>, avatarUrl: string, coverUrl: string)

  /** The alert of an aborted image step. */
  function AbortMessage(kind: ImageKind): (r: string)
    ensures Strings.StartsWith(r, "No se pudo subir la foto de ")
    ensures |r| > |RetryPrompt| && r[|r| - |RetryPrompt|..] == RetryPrompt
  {
    var image := match kind
      case Avatar => "perfil"
      case CoverPhoto => "portada";
    "No se pudo subir la foto de " + image + RetryPrompt
  }


  /** One image of the save: left alone when unchanged, otherwise passed
      through `uploadImageIfNeeded`. */
  function SaveImage(formValue: string, current: Option<User>, kind: ImageKind, upload: string -> Option<string>): (r: ImageUpload)
    ensures !ImageChanged(formValue, current, kind) ==> r == ImageUpload(false, Ok(formValue))
    ensures ImageChanged(formValue, current, kind) ==> r == UploadImageIfNeeded(formValue, kind, upload)
  {
    if ImageChanged(formValue, current, kind) then UploadImageIfNeeded(formValue, kind, upload)
    else ImageUpload(false, Ok(formValue))
  }

  /** The URI of a step that called the upload service. */
  function Sent(step: ImageUpload, uri: string): seq<string> {
    if step.uploaded then [uri] else []
  }

  /** The avatar first, then the cover; each is uploaded only when changed,
      and a failure stops everything after it. */
  function ImagesFor(form: EditForm, current: Option<User>, upload: string -> Option<string>): (r: ImagePlan)
    ensures !ImageChanged(form.avatar, current, Avatar) && !ImageChanged(form.coverPhoto, current, CoverPhoto) ==>
      r == Ready([], form.avatar, form.coverPhoto)
    ensures r.Aborted? ==> r.message in {AbortMessage(Avatar), AbortMessage(CoverPhoto)}
    ensures r.Ready? && !ImageChanged(form.avatar, current, Avatar) ==> r.avatarUrl == form.avatar
    ensures r.Ready? && !ImageChanged(form.coverPhoto, current, CoverPhoto) ==> r.coverUrl == form.coverPhoto
    ensures |r.uploads| <= 2
  {
    var a := SaveImage(form.avatar, current, Avatar, upload);
    if a.result.Err? then Aborted(Sent(a, form.avatar), AbortMessage(Avatar))
    else
      var c := SaveImage(form.coverPhoto, current, CoverPhoto, upload);
      var sent := Sent(a, form.avatar) + Sent(c, form.coverPhoto);
      if c.result.Err? then Aborted(sent, AbortMessage(CoverPhoto))
      else Ready(sent, a.result.value, c.result.value)
  }

  /** A server URL left in the form is never uploaded again. */
  lemma RemoteImagesNotUploaded(form: EditForm, current: Option<User>, upload: string -> Option<string>)
    requires !IsLocalUri(form.avatar) && !IsLocalUri(form.coverPhoto)
    ensures ImagesFor(form, current, upload) == Ready([], form.avatar, form.coverPhoto)
  {
  }

  /** A new local avatar whose upload fails stops the save with the avatar
      alert; the cover is not even tried. */
  lemma AvatarFailureStopsSave(form: EditForm, current: Option<User>, upload: string -> Option<string>)
    requires ImageChanged(form.avatar, current, Avatar) && IsLocalUri(form.avatar) && upload(form.avatar).None?
    ensures ImagesFor(form, current, upload) == Aborted([form.avatar], AbortMessage(Avatar))
  {
  }

  /** With the avatar kept, a new local cover whose upload fails stops the
      save with the cover alert. */
  lemma CoverFailureStopsSave(form: EditForm, current: Option<User>, upload: string -> Option<string>)
    requires !ImageChanged(form.avatar, current, Avatar)
    requires ImageChanged(form.coverPhoto, current, CoverPhoto) && IsLocalUri(form.coverPhoto) && upload(form.coverPhoto).None?
    ensures ImagesFor(form, current, upload) == Aborted([form.coverPhoto], AbortMessage(CoverPhoto))
  {
  }

  /** Two new local images are uploaded avatar first, and the payload gets
      the URLs the server returned. */
  lemma NewImagesUploaded(form: EditForm, current: Option<User>, upload: string -> Option<string>)
    requires ImageChanged(form.avatar, current, Avatar) && IsLocalUri(form.avatar) && upload(form.avatar).Some?
    requires ImageChanged(form.coverPhoto, current, CoverPhoto) && IsLocalUri(form.coverPhoto) && upload(form.coverPhoto).Some?
    ensures ImagesFor(form, current, upload) ==
      Ready([form.avatar, form.coverPhoto], upload(form.avatar).value, upload(form.coverPhoto).value)
  {
  }

  /** How `updateProfile` ended: the user the server sent back, or a throw
      with its optional `response.data.message` and `message`. */
  datatype ProfileSaveOutcome =
    | ProfileSaved(updated: User)
    | ProfileSaveFailed(responseMessage: Option<string>, message: Option<string>)

  function SaveFailureMessage(responseMessage: Option<string>, message: Option<string>): (m: string)
    ensures m != ""
    ensures Truthy(responseMessage) ==> m == responseMessage.value
    ensures !Truthy(responseMessage) && Truthy(message) ==> m == message.value
  {
    if Truthy(responseMessage) then responseMessage.value
    else if Truthy(message) then message.value
    else DefaultProfileError
  }

  /** The profile screen's state; `session` is the session store its
      `useUser` reads. */
  class Screen {
    const session: Session.Store
    var form: EditForm
    var editing: bool
    var saving: bool

    constructor (session: Session.Store)
      ensures this.session == session && form == BlankForm && !editing && !saving
    {
      this.session := session;
      form, editing, saving := BlankForm, false, false;
    }

    /** The effect on `user`: a signed-in user fills the form. */
    method LoadForm()
      modifies this
      ensures session.user.Some? ==> form == FormFromUser(session.user.value)
      ensures session.user.None? ==> form == old(form)
      ensures editing == old(editing) && saving == old(saving)
    {
      if session.user.Some? {
        form := FormFromUser(session.user.value);
      }
    }

    /** `handleCancelEdit`: nothing without a user; otherwise the form is
        reloaded from the user and editing ends. */
    method CancelEdit()
      modifies this
      ensures session.user.None? ==> form == old(form) && editing == old(editing)
      ensures session.user.Some? ==> form == FormFromUser(session.user.value) && !editing
      ensures saving == old(saving)
    {
      if session.user.None? {
        return;
      }
      form := FormFromUser(session.user.value);
      editing := false;
    }

    /** The date picker's `onChange`: a picked date is stored as text; a
        dismissed picker changes nothing. */
    method PickDate(picked: Option<CalendarDate>)
      requires picked.Some? ==> IsCalendarDate(picked.value)
      modifies this
      ensures form == if picked.Some? then old(form).(dateOfBirth := DateString(picked.value)) else old(form)
      ensures editing == old(editing) && saving == old(saving)
    {
      if picked.Some? {
        form := form.(dateOfBirth := DateString(picked.value));
      }
    }

    /** `handleSelectGender`: the chosen option's value goes into the form. */
    method SelectGender(i: nat)
      requires i < |GenderOptions|
      modifies this
      ensures form == old(form).(gender := GenderOptions[i].value)
      ensures GenderLabel(Some(form.gender)) == GenderOptions[i].text
      ensures editing == old(editing) && saving == old(saving)
    {
      form := form.(gender := GenderOptions[i].value);
    }

    /** `handleSaveProfile`: the changed images are uploaded, avatar first,
        and any failure stops the save with its alert; then the payload is
        sent, and the answer is merged into the session and refreshes the
        form's images. */
    method HandleSaveProfile(upload: string -> Option<string>, outcome: ProfileSaveOutcome)
      returns (uploads: seq<string>, payload: Option<ProfilePayload>, alert: Alert)
      modifies this, session
      ensures !saving && session.loading == old(session.loading) && session.error == old(session.error)
        && session.initialized == old(session.initialized)
      ensures var plan := ImagesFor(old(form), old(session.user), upload);
        && uploads == plan.uploads
        && (plan.Aborted? ==>
              payload.None? && alert == Alert("Error", plan.message)
              && form == old(form) && editing == old(editing) && session.user == old(session.user))
        && (plan.Ready? ==> payload == Some(BuildPayload(old(form), plan.avatarUrl, plan.coverUrl)))
        && (plan.Ready? && outcome.ProfileSaved? ==>
              && session.user == Session.MergeUser(old(session.user), Session.PatchFrom(outcome.updated))
              && form == old(form).(avatar := OrEmpty(outcome.updated.avatar), coverPhoto := OrEmpty(outcome.updated.coverPhoto))
              && !editing && alert == Alert("Éxito", "Perfil actualizado correctamente"))
        && (plan.Ready? && outcome.ProfileSaveFailed? ==>
              && session.user == old(session.user) && form == old(form) && editing == old(editing)
              && alert == Alert("Error", SaveFailureMessage(outcome.responseMessage, outcome.message)))
    {
      saving := true;
      var plan := UploadChangedImages(form, session.user, upload);
      uploads := plan.uploads;
      if plan.Aborted? {
        saving := false;
        return uploads, None, Alert("Error", plan.message);
      }
      payload := Some(BuildPayload(form, plan.avatarUrl, plan.coverUrl));
      alert := ApplySaveOutcome(outcome);
      saving := false;
    }

    /** The answer to `updateProfile`: success merges the returned user into
        the session, takes its image URLs into the form and ends editing. */
    method ApplySaveOutcome(outcome: ProfileSaveOutcome) returns (alert: Alert)
      modifies this, session
      ensures saving == old(saving) && session.loading == old(session.loading) && session.error == old(session.error)
        && session.initialized == old(session.initialized)
      ensures outcome.ProfileSaved? ==>
        && session.user == Session.MergeUser(old(session.user), Session.PatchFrom(outcome.updated))
        && form == old(form).(avatar := OrEmpty(outcome.updated.avatar), coverPhoto := OrEmpty(outcome.updated.coverPhoto))
        && !editing && alert == Alert("Éxito", "Perfil actualizado correctamente")
      ensures outcome.ProfileSaveFailed? ==>
        && session.user == old(session.user) && form == old(form) && editing == old(editing)
        && alert == Alert("Error", SaveFailureMessage(outcome.responseMessage, outcome.message))
    {
      match outcome {
        case ProfileSaved(updated) =>
          session.UpdateUser(Session.PatchFrom(updated));
          form := form.(avatar := OrEmpty(updated.avatar), coverPhoto := OrEmpty(updated.coverPhoto));
          alert := Alert("Éxito", "Perfil actualizado correctamente");
          editing := false;
        case ProfileSaveFailed(responseMessage, message) =>
          alert := Alert("Error", SaveFailureMessage(responseMessage, message));
      }
    }
  }

  /** The image step of `handleSaveProfile`, in the source's order: the
      avatar, then the cover, each uploaded only when it changed. */
  method UploadChangedImages(form: EditForm, current: Option<User>, upload: string -> Option<string>)
    returns (plan: ImagePlan)
    ensures plan == ImagesFor(form, current, upload)
  {
    var avatarStep := SaveImage(form.avatar, current, Avatar, upload);
    var uploads := Sent(avatarStep, form.avatar);
    if avatarStep.result.Err? {
      return Aborted(uploads, AbortMessage(Avatar));
    }
    var finalAvatarUrl := avatarStep.result.value;
    var coverStep := SaveImage(form.coverPhoto, current, CoverPhoto, upload);
    uploads := uploads + Sent(coverStep, form.coverPhoto);
    if coverStep.result.Err? {
      return Aborted(uploads, AbortMessage(CoverPhoto));
    }
    var finalCoverPhotoUrl := coverStep.result.value;
    plan := Ready(uploads, finalAvatarUrl, finalCoverPhotoUrl);
  }
}
