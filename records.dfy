/**
 * The records section of a profile page: each text record becomes at most
 * one link button, chosen by the record's key, followed by an optional
 * Farcaster button and the unconditional "View on ENS App" button.
 *
 * The record formatter and the URL hostname parser are library calls; they
 * are parameters here. A record map is the sequence of its entries in key
 * iteration order.
 */
module Records {
  import opened Wrappers

  /** A rendered link button. */
  datatype Button = Button(href: string, text: string)

  /** `formatRecord(key, value)`; `None` stands for `undefined`. */
  type Formatter = (string, string) -> Option<string>

  /** `new URL(s).hostname`; `None` stands for the constructor throwing. */
  type HostnameParser = string -> Option<string>

  /** What `buttonControls` yields for one record: a button, nothing, or an exception from `new URL`. */
  datatype Control = Link(button: Button) | NoButton | Throws

  /** The outcome of rendering the whole section: its buttons in order, or the exception it propagates. */
  datatype Section = Rendered(buttons: seq<Button>) | Threw

  datatype WarpcastUser = WarpcastUser(username: string, followerCount: int)
  datatype WarpcastResult = WarpcastResult(user: WarpcastUser)
  datatype WarpcastResponse = WarpcastResponse(result: Option<WarpcastResult>)

  const TWITTER_KEY: string := "com.twitter"
  const URL_KEY: string := "url"
  const GITHUB_KEY: string := "com.github"
  const TELEGRAM_KEY: string := "org.telegram"

  /** JavaScript `formatted || value`: `undefined` and `""` both fall back to `value`. */
  function OrValue(formatted: Option<string>, value: string): (r: string)
    ensures formatted.Some? && formatted.value != "" ==> r == formatted.value
    ensures formatted.None? || formatted.value == "" ==> r == value
  {
    if formatted.Some? && formatted.value != "" then formatted.value else value
  }

  /** The string JavaScript's `+` makes of a `string | undefined`. */
  function JsString(formatted: Option<string>): (r: string)
    ensures formatted.Some? ==> r == formatted.value
    ensures formatted.None? ==> r == "undefined"
  {
    if formatted.Some? then formatted.value else "undefined"
  }

  /** `s.replace(/^@/, '')`: at most one leading '@' goes, every other character stays. */
  function StripLeadingAt(s: string): (r: string)
    ensures |s| - |r| == (if |s| > 0 && s[0] == '@' then 1 else 0)
    ensures r == s[|s| - |r|..]
  {
    if |s| > 0 && s[0] == '@' then s[1..] else s
  }

  /** The keys `buttonControls` renders a button for. */
  predicate Recognized(key: string)
  {
    key == TWITTER_KEY || key == URL_KEY || key == GITHUB_KEY || key == TELEGRAM_KEY
  }

  /** `buttonControls(key, value)`: dispatch on the record key. */
  function ButtonControls(key: string, value: string, formatRecord: Formatter, hostname: HostnameParser): (c: Control)
    ensures c.NoButton? <==> !Recognized(key)
    ensures c.Throws? <==> key == "url" && hostname(OrValue(formatRecord(key, value), value)).None?
    ensures key == "com.twitter" ==>
      c.Link? && c.button.text == OrValue(formatRecord(key, value), value)
      && c.button.href == "https://twitter.com/" + JsString(formatRecord(key, value))
    ensures key == "url" && c.Link? ==>
      c.button.href == value && Some(c.button.text) == hostname(OrValue(formatRecord(key, value), value))
    ensures key == "com.github" ==>
      c.Link? && c.button.text == OrValue(formatRecord(key, value), value)
      && c.button.href == "https://github.com/" + c.button.text
    ensures key == "org.telegram" ==>
      c.Link? && c.button.text == OrValue(formatRecord(key, value), value)
      && c.button.href == "https://t.me/" + StripLeadingAt(c.button.text)
  {
    var formatted := formatRecord(key, value);
    if key == TWITTER_KEY then
      Link(Button("https://twitter.com/" + JsString(formatted), OrValue(formatted, value)))
    else if key == URL_KEY then
      match hostname(OrValue(formatted, value))
      case None => Throws
      case Some(host) => Link(Button(value, host))
    else if key == GITHUB_KEY then
      Link(Button("https://github.com/" + OrValue(formatted, value), OrValue(formatted, value)))
    else if key == TELEGRAM_KEY then
      Link(Button("https://t.me/" + StripLeadingAt(OrValue(formatted, value)), OrValue(formatted, value)))
    else
      NoButton
  }

  /** The Twitter href uses the formatted value alone: with no formatted value it ends in "undefined" while the label is the raw value. */
  lemma TwitterHrefWithoutFormattedValue(value: string, formatRecord: Formatter, hostname: HostnameParser)
    requires formatRecord("com.twitter", value).None?
    ensures ButtonControls("com.twitter", value, formatRecord, hostname)
      == Link(Button("https://twitter.com/undefined", value))
  {
  }

  /** A Telegram handle loses at most its first '@': "@@bob" links to "https://t.me/@bob". */
  lemma TelegramStripsOneAt(value: string, formatRecord: Formatter, hostname: HostnameParser)
    requires formatRecord("org.telegram", value).None?
    requires |value| >= 2 && value[0] == '@' && value[1] == '@'
    ensures ButtonControls("org.telegram", value, formatRecord, hostname)
      == Link(Button("https://t.me/" + value[1..], value))
  {
  }

  /** `Object.keys(records).map(key => buttonControls(key, records[key]))`. */
  function Controls(records: seq<(string, string)>, formatRecord: Formatter, hostname: HostnameParser): (cs: seq<Control>)
    ensures |cs| == |records|
    ensures forall i :: 0 <= i < |records| ==> cs[i] == ButtonControls(records[i].0, records[i].1, formatRecord, hostname)
  {
    if records == [] then []
    else [ButtonControls(records[0].0, records[0].1, formatRecord, hostname)] + Controls(records[1..], formatRecord, hostname)
  }

  /** `.filter(Boolean)`: the buttons, in order, with the records that produced nothing dropped. */
  function KeepLinks(cs: seq<Control>): (buttons: seq<Button>)
    ensures forall b :: b in buttons <==> Link(b) in cs
    ensures |buttons| <= |cs|
  {
    if cs == [] then []
    else (if cs[0].Link? then [cs[0].button] else []) + KeepLinks(cs[1..])
  }

  /** Filtering distributes over concatenation, so relative order is kept and no gap is left. */
  lemma {:induction false} KeepLinksAppend(a: seq<Control>, b: seq<Control>)
    ensures KeepLinks(a + b) == KeepLinks(a) + KeepLinks(b)
  {
    if a == [] {
      assert a + b == b;
    } else {
      assert (a + b)[1..] == a[1..] + b;
      KeepLinksAppend(a[1..], b);
    }
  }

  /** Mapping distributes over concatenation of the record entries. */
  lemma {:induction false} ControlsAppend(a: seq<(string, string)>, b: seq<(string, string)>,
                                          formatRecord: Formatter, hostname: HostnameParser)
    ensures Controls(a + b, formatRecord, hostname) == Controls(a, formatRecord, hostname) + Controls(b, formatRecord, hostname)
  {
    // Both sides agree pointwise by the contract of Controls.
  }

  /** The record buttons of `a + b` are those of `a` followed by those of `b`: key iteration order is kept. */
  lemma RecordButtonsInKeyOrder(a: seq<(string, string)>, b: seq<(string, string)>,
                                formatRecord: Formatter, hostname: HostnameParser)
    ensures KeepLinks(Controls(a + b, formatRecord, hostname))
      == KeepLinks(Controls(a, formatRecord, hostname)) + KeepLinks(Controls(b, formatRecord, hostname))
  {
    ControlsAppend(a, b, formatRecord, hostname);
    KeepLinksAppend(Controls(a, formatRecord, hostname), Controls(b, formatRecord, hostname));
  }

  /** The number of entries whose key gets a button. */
  function CountRecognized(records: seq<(string, string)>): nat
  {
    if records == [] then 0
    else (if Recognized(records[0].0) then 1 else 0) + CountRecognized(records[1..])
  }

  /** When no `url` record throws, there is one record button per recognised key. */
  lemma {:induction false} RecordButtonCount(records: seq<(string, string)>, formatRecord: Formatter, hostname: HostnameParser)
    requires Throws !in Controls(records, formatRecord, hostname)
    ensures |KeepLinks(Controls(records, formatRecord, hostname))| == CountRecognized(records)
  {
    if records != [] {
      var cs := Controls(records, formatRecord, hostname);
      assert cs[1..] == Controls(records[1..], formatRecord, hostname);
      assert cs[0] != Throws;
      RecordButtonCount(records[1..], formatRecord, hostname);
    }
  }

  /** Whether `farcaster && farcaster.result` holds. */
  predicate FarcasterPresent(farcaster: Option<WarpcastResponse>)
    ensures FarcasterPresent(farcaster) <==> farcaster != None && farcaster.value.result != None
  {
    farcaster.Some? && farcaster.value.result.Some?
  }

  /** The Farcaster button, when there is a resolved user. */
  function FarcasterButtons(farcaster: Option<WarpcastResponse>): (buttons: seq<Button>)
    ensures |buttons| == if FarcasterPresent(farcaster) then 1 else 0
    ensures FarcasterPresent(farcaster) ==>
      buttons[0].href == "https://warpcast.com/" + farcaster.value.result.value.user.username
  {
    if FarcasterPresent(farcaster) then
      var username := farcaster.value.result.value.user.username;
      [Button("https://warpcast.com/" + username, "@" + username + " on farcaster")]
    else []
  }

  /** The trailing button to the profile on the ENS app. */
  function EnsAppButton(name: string): (b: Button)
    ensures |b.href| == 16 + |name| && b.href[..16] == "https://ens.app/" && b.href[16..] == name
    ensures b.text == "View on ENS App"
  {
    Button("https://ens.app/" + name, "View on ENS App")
  }

  /** `RecordsSection`: record buttons, then the Farcaster button, then the ENS app button. */
  function RecordsSection(name: string, records: seq<(string, string)>, farcaster: Option<WarpcastResponse>,
                          formatRecord: Formatter, hostname: HostnameParser): (section: Section)
    ensures section.Threw? <==> Throws in Controls(records, formatRecord, hostname)
    ensures section.Rendered? ==>
      && |section.buttons| >= 1
      && section.buttons[|section.buttons| - 1] == EnsAppButton(name)
      && section.buttons[..|section.buttons| - 1]
         == KeepLinks(Controls(records, formatRecord, hostname)) + FarcasterButtons(farcaster)
  {
    var cs := Controls(records, formatRecord, hostname);
    if Throws in cs then Threw
    else Rendered(KeepLinks(cs) + FarcasterButtons(farcaster) + [EnsAppButton(name)])
  }

  /** The section throws exactly when some `url` record's formatted-or-raw value has no parsable hostname. */
  lemma SectionThrowsIffBadUrl(name: string, records: seq<(string, string)>, farcaster: Option<WarpcastResponse>,
                               formatRecord: Formatter, hostname: HostnameParser)
    ensures RecordsSection(name, records, farcaster, formatRecord, hostname).Threw? <==>
      exists i :: 0 <= i < |records| && records[i].0 == "url"
        && hostname(OrValue(formatRecord("url", records[i].1), records[i].1)).None?
  {
    // Follows from the contracts of RecordsSection, Controls and ButtonControls.
  }

  /**
   * The layout of a rendered section: one button per recognised record, in
   * key order, then the Farcaster button when present, and always last the
   * ENS app button.
   */
  lemma SectionLayout(name: string, records: seq<(string, string)>, farcaster: Option<WarpcastResponse>,
                      formatRecord: Formatter, hostname: HostnameParser)
    requires RecordsSection(name, records, farcaster, formatRecord, hostname).Rendered?
    ensures var buttons := RecordsSection(name, records, farcaster, formatRecord, hostname).buttons;
      var n := CountRecognized(records);
      && |buttons| == n + (if FarcasterPresent(farcaster) then 1 else 0) + 1
      && buttons[..n] == KeepLinks(Controls(records, formatRecord, hostname))
      && (FarcasterPresent(farcaster) ==>
            buttons[n].href == "https://warpcast.com/" + farcaster.value.result.value.user.username)
      && buttons[|buttons| - 1] == Button("https://ens.app/" + name, "View on ENS App")
  {
    RecordButtonCount(records, formatRecord, hostname);
  }

  /** A Twitter record and a Discord record give exactly a Twitter button and the ENS app button. */
  lemma TwitterAndDiscordExample(name: string, formatRecord: Formatter, hostname: HostnameParser)
    requires formatRecord("com.twitter", "alice") == Some("alice")
    ensures RecordsSection(name, [("com.twitter", "alice"), ("com.discord", "alice#1234")], None, formatRecord, hostname)
      == Rendered([Button("https://twitter.com/alice", "alice"), Button("https://ens.app/" + name, "View on ENS App")])
  {
    var records := [("com.twitter", "alice"), ("com.discord", "alice#1234")];
    var cs := Controls(records, formatRecord, hostname);
    assert "com.discord"[4] != "com.twitter"[4];
    assert !Recognized("com.discord");
    assert cs[0] == Link(Button("https://twitter.com/alice", "alice"));
    assert cs[1] == NoButton;
    assert cs == [Link(Button("https://twitter.com/alice", "alice")), NoButton];
    assert KeepLinks(cs) == [Button("https://twitter.com/alice", "alice")] by {
      KeepLinksAppend([cs[0]], [cs[1]]);
      assert cs == [cs[0]] + [cs[1]];
    }
  }

  /** A `url` record links to its raw value under its hostname, before the ENS app button. */
  lemma UrlExample(name: string, formatRecord: Formatter, hostname: HostnameParser)
    requires formatRecord("url", "https://example.com/page").None?
    requires hostname("https://example.com/page") == Some("example.com")
    ensures RecordsSection(name, [("url", "https://example.com/page")], None, formatRecord, hostname)
      == Rendered([Button("https://example.com/page", "example.com"), Button("https://ens.app/" + name, "View on ENS App")])
  {
  }
}
