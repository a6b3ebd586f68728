/**
 * The setup guide and key decision of src/file_generator.py: which selections
 * get an encryption key, the order in which services are walked through, and
 * the Markdown sections written for each service, for the VPN, and for
 * troubleshooting. Templates are inputs; the guide is a sequence of lines
 * (Python's `guide_lines`), joined with newlines when written.
 */
module Guide {
  import opened Wrappers
  import opened Text
  import opened OrderedMap
  import opened Utils
  import opened Constants
  import opened Catalog
  import opened VpnConfig

  // ---------------------------------------------------------------------------
  // The encryption key

  /**
   * The key `generate_all_files` hands to the Compose builder: a fresh key when
   * Homarr is selected, the empty string otherwise. `draw` is the random source.
   */
  function FilesKey(selected: seq<string>, draw: nat -> nat): (key: string)
    ensures key != "" <==> "homarr" in selected
    ensures key != "" ==> |key| == 32 && forall i | 0 <= i < |key| :: IsAlnum(key[i])
  {
    if "homarr" in selected then GenerateEncryptionKey(draw) else ""
  }

  // ---------------------------------------------------------------------------
  // Walkthrough order

  /** `list.index`: the first position of an element. */
  function IndexOf(s: seq<string>, x: string): (i: nat)
    requires x in s
    ensures i < |s| && s[i] == x && x !in s[..i]
  {
    if s[0] == x then 0 else 1 + IndexOf(s[1..], x)
  }

  /**
   * The sort key against a priority list: the position in the list, 999 for an
   * id the list does not name.
   */
  function Rank(order: seq<string>, id: string): (k: nat)
    ensures id in order ==> k < |order| && order[k] == id
    ensures id !in order ==> k == 999
  {
    if id in order then IndexOf(order, id) else 999
  }

  predicate Sorted(order: seq<string>, s: seq<string>) {
    forall i, j | 0 <= i < j < |s| :: Rank(order, s[i]) <= Rank(order, s[j])
  }

  /** The ids with the given key, in their order. */
  function WithKey(order: seq<string>, s: seq<string>, k: nat): (r: seq<string>)
    ensures |r| <= |s|
  {
    if |s| == 0 then []
    else (if Rank(order, s[0]) == k then [s[0]] else []) + WithKey(order, s[1..], k)
  }

  /** Places an id after every id whose key is not larger. */
  function Insert(order: seq<string>, x: string, t: seq<string>): (r: seq<string>)
    ensures multiset(r) == multiset(t) + multiset{x}
  {
    if |t| == 0 then [x]
    else if Rank(order, x) < Rank(order, t[0]) then [x] + t
    else
      assert t == [t[0]] + t[1..];
      [t[0]] + Insert(order, x, t[1..])
  }

  /** Python's `sorted` with a key, as an insertion sort from the left. */
  function SortBy(order: seq<string>, s: seq<string>): (r: seq<string>)
    ensures multiset(r) == multiset(s)
  {
    if |s| == 0 then []
    else
      assert s == s[..|s| - 1] + [s[|s| - 1]];
      Insert(order, s[|s| - 1], SortBy(order, s[..|s| - 1]))
  }

  /** The order in which the guide walks through the selected services. */
  function SortByPriority(selected: seq<string>): (r: seq<string>)
    ensures multiset(r) == multiset(selected)
  {
    SortBy(SetupOrderPriority, selected)
  }

  /** Every id of `s` has at least key `b`. */
  predicate AtLeast(order: seq<string>, s: seq<string>, b: nat) {
    forall i | 0 <= i < |s| :: Rank(order, s[i]) >= b
  }

  lemma {:induction false} InsertAtLeast(order: seq<string>, x: string, t: seq<string>, b: nat)
    requires AtLeast(order, t, b) && Rank(order, x) >= b
    ensures AtLeast(order, Insert(order, x, t), b)
  {
    if |t| > 0 && Rank(order, x) >= Rank(order, t[0]) {
      InsertAtLeast(order, x, t[1..], b);
      var rest := Insert(order, x, t[1..]);
      assert Insert(order, x, t) == [t[0]] + rest;
      assert forall i | 0 <= i < |rest| :: ([t[0]] + rest)[i + 1] == rest[i];
    }
  }

  lemma {:induction false} InsertSorted(order: seq<string>, x: string, t: seq<string>)
    requires Sorted(order, t)
    ensures Sorted(order, Insert(order, x, t))
  {
    if |t| > 0 {
      if Rank(order, x) >= Rank(order, t[0]) {
        InsertSorted(order, x, t[1..]);
        InsertAtLeast(order, x, t[1..], Rank(order, t[0]));
        var rest := Insert(order, x, t[1..]);
        assert Insert(order, x, t) == [t[0]] + rest;
      }
    }
  }

  lemma {:induction false} WithKeyAppend(order: seq<string>, a: seq<string>, b: seq<string>, k: nat)
    ensures WithKey(order, a + b, k) == WithKey(order, a, k) + WithKey(order, b, k)
  {
    if |a| > 0 {
      WithKeyAppend(order, a[1..], b, k);
      assert (a + b)[1..] == a[1..] + b;
    } else {
      assert a + b == b;
    }
  }

  lemma {:induction false} WithoutKey(order: seq<string>, t: seq<string>, k: nat)
    requires forall i | 0 <= i < |t| :: Rank(order, t[i]) != k
    ensures WithKey(order, t, k) == []
  {
    if |t| > 0 {
      WithoutKey(order, t[1..], k);
    }
  }

  lemma WithKeyCons(order: seq<string>, y: string, rest: seq<string>, k: nat)
    ensures WithKey(order, [y] + rest, k) == (if Rank(order, y) == k then [y] else []) + WithKey(order, rest, k)
  {
    assert ([y] + rest)[1..] == rest;
  }

  /** The key `k` part of a sequence with `x` in front, when `x` has a smaller key than every element. */
  lemma FrontWithKey(order: seq<string>, x: string, t: seq<string>, k: nat)
    requires Sorted(order, t) && |t| > 0 && Rank(order, x) < Rank(order, t[0])
    ensures WithKey(order, [x] + t, k) == WithKey(order, t, k) + (if Rank(order, x) == k then [x] else [])
  {
    WithKeyCons(order, x, t, k);
    if Rank(order, x) == k {
      WithoutKey(order, t, k);
    }
  }

  /** The key `k` part of `[y] + rest` when `rest` already gained `x` at its own place. */
  lemma LaterWithKey(order: seq<string>, x: string, y: string, rest: seq<string>, t1: seq<string>, k: nat)
    requires WithKey(order, rest, k) == WithKey(order, t1, k) + (if Rank(order, x) == k then [x] else [])
    ensures WithKey(order, [y] + rest, k) == WithKey(order, [y] + t1, k) + (if Rank(order, x) == k then [x] else [])
  {
    WithKeyCons(order, y, rest, k);
    WithKeyCons(order, y, t1, k);
    Assoc(if Rank(order, y) == k then [y] else [], WithKey(order, t1, k), if Rank(order, x) == k then [x] else []);
  }

  lemma {:induction false} InsertWithKey(order: seq<string>, x: string, t: seq<string>, k: nat)
    requires Sorted(order, t)
    ensures WithKey(order, Insert(order, x, t), k) == WithKey(order, t, k) + (if Rank(order, x) == k then [x] else [])
  {
    if |t| == 0 {
      WithKeySingle(order, x, k);
    } else if Rank(order, x) < Rank(order, t[0]) {
      FrontWithKey(order, x, t, k);
    } else {
      assert Sorted(order, t[1..]);
      InsertWithKey(order, x, t[1..], k);
      LaterWithKey(order, x, t[0], Insert(order, x, t[1..]), t[1..], k);
      assert [t[0]] + t[1..] == t;
    }
  }

  lemma {:induction false} SortSorted(order: seq<string>, s: seq<string>)
    ensures Sorted(order, SortBy(order, s))
  {
    if |s| > 0 {
      SortSorted(order, s[..|s| - 1]);
      InsertSorted(order, s[|s| - 1], SortBy(order, s[..|s| - 1]));
    }
  }

  lemma LastSplit(s: seq<string>)
    requires |s| > 0
    ensures s == s[..|s| - 1] + [s[|s| - 1]]
  {
  }

  lemma WithKeySingle(order: seq<string>, x: string, k: nat)
    ensures WithKey(order, [x], k) == if Rank(order, x) == k then [x] else []
  {
    assert WithKey(order, [x], k) == (if Rank(order, x) == k then [x] else []) + WithKey(order, [], k);
  }

  lemma {:induction false} SortStable(order: seq<string>, s: seq<string>, k: nat)
    ensures WithKey(order, SortBy(order, s), k) == WithKey(order, s, k)
  {
    if |s| > 0 {
      var init := s[..|s| - 1];
      var x := s[|s| - 1];
      var sorted := SortBy(order, init);
      assert SortBy(order, s) == Insert(order, x, sorted);
      SortStable(order, init, k);
      SortSorted(order, init);
      InsertWithKey(order, x, sorted, k);
      LastSplit(s);
      WithKeyAppend(order, init, [x], k);
      WithKeySingle(order, x, k);
    }
  }

  /**
   * The guide order holds the selected ids, each as often as selected, sorted
   * by their place in the priority list; ids sharing a key (in particular all
   * the ids the list does not name) keep their selection order, and come after
   * every id the list names.
   */
  lemma GuideOrder(selected: seq<string>)
    ensures var r := SortByPriority(selected);
      && multiset(r) == multiset(selected)
      && Sorted(SetupOrderPriority, r)
      && (forall k: nat :: WithKey(SetupOrderPriority, r, k) == WithKey(SetupOrderPriority, selected, k))
      && (forall i, j | 0 <= i < j < |r| && r[i] !in SetupOrderPriority :: r[j] !in SetupOrderPriority)
  {
    SortSorted(SetupOrderPriority, selected);
    forall k: nat ensures WithKey(SetupOrderPriority, SortByPriority(selected), k) == WithKey(SetupOrderPriority, selected, k) {
      SortStable(SetupOrderPriority, selected, k);
    }
    SetupOrderShape();
  }

  // ---------------------------------------------------------------------------
  // A service's section

  /** The configuration counts only when one was passed and it is enabled. */
  predicate VpnOn(config: Option<GluetunConfig>) {
    config.Some? && config.value.enabled
  }

  /** `str(service.get("port", "Unknown"))`: a null port prints as "None". */
  function PortText(svc: Service): (r: string)
    ensures svc.port.Some? ==> AllDigits(r) && ParseInt(r) == Some(svc.port.value)
    ensures svc.port.None? ==> r == if "port" in svc.nulls then "None" else "Unknown"
  {
    if svc.port.Some? then
      DigitsOfNatToString(svc.port.value);
      ParseNatToString(svc.port.value);
      NatToString(svc.port.value)
    else PortShown(svc).GetOr("Unknown")
  }

  const ViaGluetun: string := " (accessed via Gluetun)"

  /** The port text shown for a service, noting when qBittorrent is reached through Gluetun. */
  function PortInfo(id: string, svc: Service, config: Option<GluetunConfig>): (r: string)
    ensures StartsWith(r, PortText(svc))
    ensures |r| > |PortText(svc)| <==> id == "qbittorrent" && VpnOn(config) && config.value.routeQbittorrent
    ensures |r| > |PortText(svc)| ==> r[|PortText(svc)|..] == ViaGluetun
  {
    var text := PortText(svc);
    if id == "qbittorrent" && VpnOn(config) && config.value.routeQbittorrent then text + ViaGluetun else text
  }

  /** The host the *arr applications use for qBittorrent. */
  function QbitHost(config: GluetunConfig): (host: string)
    ensures host == "gluetun" <==> config.routeQbittorrent
    ensures host == "gluetun" || host == "qbittorrent"
  {
    if config.routeQbittorrent then "gluetun" else "qbittorrent"
  }

  const QbitHostPlaceholder: string := "{qbittorrent_host}"

  /**
   * A setup step as shown: with the VPN on, every `{qbittorrent_host}` is replaced
   * by the host; with the VPN off or no configuration, the step is unchanged.
   */
  function StepText(step: string, config: Option<GluetunConfig>): (r: string)
    ensures !VpnOn(config) ==> r == step
    ensures VpnOn(config) ==> r == Join(SplitOn(step, QbitHostPlaceholder), QbitHost(config.value))
  {
    if VpnOn(config) then
      ReplaceIsSplitJoin(step, QbitHostPlaceholder, QbitHost(config.value));
      ReplaceAll(step, QbitHostPlaceholder, QbitHost(config.value))
    else step
  }

  /** A setup URL that is shown as is: present, non-empty, and not the text "null". */
  predicate UsableUrl(url: Option<string>) {
    url.Some? && url.value != "" && url.value != "null"
  }

  const AccessPrefix: string := "**Access URL:** "

  /** The access line: the setup URL verbatim when usable, else `localhost` on the port text. */
  function AccessLine(svc: Service, portInfo: string): (r: string)
    ensures StartsWith(r, AccessPrefix)
    ensures UsableUrl(svc.setupUrl) ==> r[|AccessPrefix|..] == svc.setupUrl.value
    ensures !UsableUrl(svc.setupUrl) ==> r[|AccessPrefix|..] == "http://localhost:" + portInfo
  {
    if UsableUrl(svc.setupUrl) then AccessPrefix + svc.setupUrl.value
    else AccessPrefix + "http://localhost:" + portInfo
  }

  /** A list of items under a bold heading, with a closing blank line; nothing when empty. */
  function Block(heading: string, items: seq<string>): (r: seq<string>)
    ensures |items| == 0 <==> r == []
    ensures |items| > 0 ==> |r| == |items| + 2 && r[0] == heading && r[|r| - 1] == ""
  {
    if |items| == 0 then [] else [heading] + Bullets(items) + [""]
  }

  /** Each item as a Markdown bullet. */
  function Bullets(items: seq<string>): (r: seq<string>)
    ensures |r| == |items|
    ensures forall i | 0 <= i < |r| :: r[i] == "- " + items[i]
  {
    seq(|items|, i requires 0 <= i < |items| => "- " + items[i])
  }

  function StepTexts(steps: seq<string>, config: Option<GluetunConfig>): (r: seq<string>)
    ensures |r| == |steps|
    ensures forall i | 0 <= i < |r| :: r[i] == StepText(steps[i], config)
  {
    seq(|steps|, i requires 0 <= i < |steps| => StepText(steps[i], config))
  }

  /** The title of a numbered step. */
  function StepTitle(step: nat, name: string): string {
    "### " + NatToString(step) + ". " + name
  }

  const StepsHeading: string := "**Setup Steps:**"
  const NotesHeading: string := "**Configuration Notes:**"
  const WarningsHeading: string := "**\U{26A0}\U{FE0F} Important:**"

  /**
   * `service.get("name", service_id.title())`: the catalog's `name`, "None" for a
   * null name, or the id in title case when the key is absent.
   */
  function DisplayName(id: string, svc: Service): string {
    Shown(svc.name, svc, "name").GetOr(Title(id))
  }

  /** The numbered title, the access line and the port line. */
  function SectionHead(id: string, svc: Service, step: nat, config: Option<GluetunConfig>): seq<string> {
    var portInfo := PortInfo(id, svc, config);
    [StepTitle(step, DisplayName(id, svc)), "", AccessLine(svc, portInfo), "**Port:** " + portInfo, ""]
  }

  /** The steps, notes and warnings blocks. */
  function SectionBlocks(svc: Service, config: Option<GluetunConfig>): seq<string> {
    Block(StepsHeading, StepTexts(svc.setupSteps, config))
      + Block(NotesHeading, svc.configNotes)
      + Block(WarningsHeading, svc.warnings)
  }

  /** `_generate_service_setup_section`. */
  function ServiceSection(id: string, svc: Service, step: nat, config: Option<GluetunConfig>): seq<string> {
    SectionHead(id, svc, step, config) + SectionBlocks(svc, config) + ["---", ""]
  }

  /** A line whose first character differs from the heading's is not that heading. */
  lemma BulletsExclude(items: seq<string>, heading: string)
    requires |heading| > 0 && heading[0] != '-'
    ensures heading !in Bullets(items)
  {
    var b := Bullets(items);
    forall i | 0 <= i < |b| ensures b[i] != heading {
      assert b[i][0] == '-';
    }
  }

  /** A block holds a heading other than its own only when that heading is one of its bullets. */
  lemma BlockExcludes(heading: string, items: seq<string>, other: string)
    requires |other| > 0 && other[0] != '-' && other != heading
    ensures other !in Block(heading, items)
  {
    BulletsExclude(items, other);
  }

  /** The opening lines hold none of the block headings. */
  lemma HeadLacksHeadings(id: string, svc: Service, step: nat, config: Option<GluetunConfig>)
    ensures var head := SectionHead(id, svc, step, config);
      StepsHeading !in head && NotesHeading !in head && WarningsHeading !in head
  {
    var portInfo := PortInfo(id, svc, config);
    var t := StepTitle(step, DisplayName(id, svc));
    var a := AccessLine(svc, portInfo);
    var p := "**Port:** " + portInfo;
    assert t[0] == '#' && a[2] == 'A' && p[2] == 'P';
    assert StepsHeading[0] == '*' && StepsHeading[2] == 'S';
    assert NotesHeading[0] == '*' && NotesHeading[2] == 'C';
    assert WarningsHeading[0] == '*' && WarningsHeading[2] == '\U{26A0}';
    HeadExcludes(StepsHeading, t, a, p);
    HeadExcludes(NotesHeading, t, a, p);
    HeadExcludes(WarningsHeading, t, a, p);
  }

  /** A heading differing from each head line at its first or third character is not in the head. */
  lemma HeadExcludes(h: string, t: string, a: string, p: string)
    requires |h| > 2 && h[0] == '*' && h[2] != 'A' && h[2] != 'P'
    requires |t| > 0 && t[0] == '#' && |a| > 2 && a[2] == 'A' && |p| > 2 && p[2] == 'P'
    ensures h !in [t, "", a, p, ""]
  {
    assert h != t && h != a && h != p;
  }

  /** Which headings the blocks part holds. */
  lemma BlocksHeadings(svc: Service, config: Option<GluetunConfig>)
    ensures var b := SectionBlocks(svc, config);
      && (StepsHeading in b <==> |svc.setupSteps| > 0)
      && (NotesHeading in b <==> |svc.configNotes| > 0)
      && (WarningsHeading in b <==> |svc.warnings| > 0)
  {
    var steps := Block(StepsHeading, StepTexts(svc.setupSteps, config));
    BlockExcludes(NotesHeading, svc.configNotes, StepsHeading);
    BlockExcludes(WarningsHeading, svc.warnings, StepsHeading);
    BlockExcludes(StepsHeading, StepTexts(svc.setupSteps, config), NotesHeading);
    BlockExcludes(WarningsHeading, svc.warnings, NotesHeading);
    BlockExcludes(StepsHeading, StepTexts(svc.setupSteps, config), WarningsHeading);
    BlockExcludes(NotesHeading, svc.configNotes, WarningsHeading);
  }

  /**
   * A section opens with its numbered title, the access line and the port line,
   * has the steps, notes and warnings blocks exactly when the service lists
   * some, and ends with a rule and a blank line.
   */
  lemma ServiceSectionShape(id: string, svc: Service, step: nat, config: Option<GluetunConfig>)
    ensures var r := ServiceSection(id, svc, step, config);
      && |r| >= 7
      && r[0] == StepTitle(step, DisplayName(id, svc))
      && r[2] == AccessLine(svc, PortInfo(id, svc, config))
      && r[3] == "**Port:** " + PortInfo(id, svc, config)
      && r[|r| - 2..] == ["---", ""]
      && (StepsHeading in r <==> |svc.setupSteps| > 0)
      && (NotesHeading in r <==> |svc.configNotes| > 0)
      && (WarningsHeading in r <==> |svc.warnings| > 0)
  {
    SectionOpening(id, svc, step, config);
    SectionHeadings(id, svc, step, config);
  }

  lemma SectionOpening(id: string, svc: Service, step: nat, config: Option<GluetunConfig>)
    ensures var r := ServiceSection(id, svc, step, config);
      && |r| >= 7
      && r[0] == StepTitle(step, DisplayName(id, svc))
      && r[2] == AccessLine(svc, PortInfo(id, svc, config))
      && r[3] == "**Port:** " + PortInfo(id, svc, config)
      && r[|r| - 2..] == ["---", ""]
  {
    Ends(SectionHead(id, svc, step, config), SectionBlocks(svc, config), ["---", ""]);
  }

  lemma SectionHeadings(id: string, svc: Service, step: nat, config: Option<GluetunConfig>)
    ensures var r := ServiceSection(id, svc, step, config);
      && (StepsHeading in r <==> |svc.setupSteps| > 0)
      && (NotesHeading in r <==> |svc.configNotes| > 0)
      && (WarningsHeading in r <==> |svc.warnings| > 0)
  {
    HeadLacksHeadings(id, svc, step, config);
    BlocksHeadings(svc, config);
    ThreeParts(SectionHead(id, svc, step, config), SectionBlocks(svc, config), ["---", ""],
               [StepsHeading, NotesHeading, WarningsHeading]);
  }

  /** Membership in three concatenated parts, for lines none of which are in the last part. */
  lemma ThreeParts(a: seq<string>, b: seq<string>, c: seq<string>, xs: seq<string>)
    requires forall i | 0 <= i < |xs| :: xs[i] !in c
    ensures forall i | 0 <= i < |xs| :: xs[i] in a + b + c <==> xs[i] in a || xs[i] in b
  { }

  /** The first and last parts of three concatenated parts. */
  lemma Ends(a: seq<string>, b: seq<string>, c: seq<string>)
    ensures |a + b + c| >= |a| + |c| && (a + b + c)[..|a|] == a && (a + b + c)[|a + b + c| - |c|..] == c
  {
    assert (a + b + c)[..|a|] == a;
    assert (a + b + c)[|a + b + c| - |c|..] == c;
  }

  /** A line not starting with `#` is no title. */
  lemma NotTitle(s: string)
    requires |s| > 0 && s[0] != '#'
    ensures !StartsWith(s, "### ")
  {
    if |s| >= 4 {
      assert s[..4][0] == s[0];
    }
  }

  predicate Untitled(lines: seq<string>) {
    forall i | 0 <= i < |lines| :: !StartsWith(lines[i], "### ")
  }

  lemma UntitledAppend(a: seq<string>, b: seq<string>)
    requires Untitled(a) && Untitled(b)
    ensures Untitled(a + b)
  {
    forall i | 0 <= i < |a + b| ensures !StartsWith((a + b)[i], "### ") {
      if i >= |a| {
        assert (a + b)[i] == b[i - |a|];
      }
    }
  }

  lemma BlockUntitled(heading: string, items: seq<string>)
    requires |heading| > 0 && heading[0] == '*'
    ensures Untitled(Block(heading, items))
  {
    var b := Block(heading, items);
    forall i | 0 <= i < |b| ensures !StartsWith(b[i], "### ") {
      if i == 0 {
        NotTitle(heading);
      } else if i < |b| - 1 {
        assert b[i] == Bullets(items)[i - 1];
        assert b[i][0] == '-';
        NotTitle(b[i]);
      }
    }
  }

  lemma BlocksUntitled(svc: Service, config: Option<GluetunConfig>)
    ensures Untitled(SectionBlocks(svc, config))
  {
    var steps := Block(StepsHeading, StepTexts(svc.setupSteps, config));
    var notes := Block(NotesHeading, svc.configNotes);
    var warnings := Block(WarningsHeading, svc.warnings);
    BlockUntitled(StepsHeading, StepTexts(svc.setupSteps, config));
    BlockUntitled(NotesHeading, svc.configNotes);
    BlockUntitled(WarningsHeading, svc.warnings);
    UntitledAppend(steps, notes);
    UntitledAppend(steps + notes, warnings);
  }

  lemma HeadRestUntitled(id: string, svc: Service, step: nat, config: Option<GluetunConfig>)
    ensures var head := SectionHead(id, svc, step, config);
      |head| == 5 && StartsWith(head[0], "### ") && Untitled(head[1..])
  {
    var portInfo := PortInfo(id, svc, config);
    var access := AccessLine(svc, portInfo);
    var port := "**Port:** " + portInfo;
    assert access[0] == '*';
    assert port[0] == '*';
    StarredUntitled(access, port);
    StepTitleStarts(step, DisplayName(id, svc));
  }

  /** A blank, two lines opening with `*`, and a blank hold no title. */
  lemma StarredUntitled(a: string, p: string)
    requires |a| > 0 && a[0] == '*' && |p| > 0 && p[0] == '*'
    ensures Untitled(["", a, p, ""])
  {
    NotTitle(a);
    NotTitle(p);
  }

  lemma StepTitleStarts(step: nat, name: string)
    ensures StartsWith(StepTitle(step, name), "### ")
  {
    assert StepTitle(step, name)[..4] == "### ";
  }

  // ---------------------------------------------------------------------------
  // The service loop and its numbering

  /**
   * The loop over the sorted ids, `enumerate(sorted_services, 1)`: an id missing
   * from the catalog gets no section but still uses up its number.
   */
  function ServiceSections(ids: seq<string>, services: Services, config: Option<GluetunConfig>, step: nat): seq<string>
    decreases |ids|
  {
    if |ids| == 0 then []
    else SectionFor(services, ids[0], step, config) + ServiceSections(ids[1..], services, config, step + 1)
  }

  /** The section of one id, or nothing when the catalog lacks it. */
  function SectionFor(services: Services, id: string, step: nat, config: Option<GluetunConfig>): seq<string> {
    match Get(services, id)
    case None => []
    case Some(svc) => ServiceSection(id, svc, step, config)
  }

  /** The lines opening with the given Markdown heading marker, in order. */
  function Headings(lines: seq<string>, marker: string): seq<string> {
    if |lines| == 0 then []
    else (if StartsWith(lines[0], marker) then [lines[0]] else []) + Headings(lines[1..], marker)
  }

  /** The titles of the sections (level three), in order. */
  function Titles(lines: seq<string>): seq<string> {
    Headings(lines, "### ")
  }

  /** The chapter headings (level two), in order. */
  function Chapters(lines: seq<string>): seq<string> {
    Headings(lines, "## ")
  }

  lemma {:induction false} HeadingsAppend(a: seq<string>, b: seq<string>, marker: string)
    ensures Headings(a + b, marker) == Headings(a, marker) + Headings(b, marker)
  {
    if |a| > 0 {
      HeadingsAppend(a[1..], b, marker);
      assert (a + b)[1..] == a[1..] + b;
    } else {
      assert a + b == b;
    }
  }

  lemma TitlesAppend(a: seq<string>, b: seq<string>)
    ensures Titles(a + b) == Titles(a) + Titles(b)
  {
    HeadingsAppend(a, b, "### ");
  }

  lemma {:induction false} TitlesOfUntitled(lines: seq<string>)
    requires Untitled(lines)
    ensures Titles(lines) == []
  {
    if |lines| > 0 {
      TitlesOfUntitled(lines[1..]);
    }
  }

  /** A section has one title: its first line. */
  lemma SectionTitles(id: string, svc: Service, step: nat, config: Option<GluetunConfig>)
    ensures Titles(ServiceSection(id, svc, step, config)) == [StepTitle(step, DisplayName(id, svc))]
  {
    HeadRestUntitled(id, svc, step, config);
    BlocksUntitled(svc, config);
    TitledParts(SectionHead(id, svc, step, config), SectionBlocks(svc, config), ["---", ""]);
  }

  /** Parts of which only the first line is a title. */
  lemma TitledParts(head: seq<string>, blocks: seq<string>, tail: seq<string>)
    requires |head| > 0 && StartsWith(head[0], "### ") && Untitled(head[1..]) && Untitled(blocks)
    requires tail == ["---", ""]
    ensures Titles(head + blocks + tail) == [head[0]]
  {
    UntitledAppend(head[1..], blocks);
    UntitledAppend(head[1..] + blocks, tail);
    TitlesOfUntitled(head[1..] + blocks + tail);
    assert head + blocks + tail == [head[0]] + (head[1..] + blocks + tail);
    assert ([head[0]] + (head[1..] + blocks + tail))[1..] == head[1..] + blocks + tail;
  }

  /** The title an id gets under the given number, if it is in the catalog. */
  function TitleOf(services: Services, id: string, step: nat): seq<string> {
    match Get(services, id)
    case None => []
    case Some(svc) => [StepTitle(step, DisplayName(id, svc))]
  }

  lemma SectionForTitles(services: Services, id: string, step: nat, config: Option<GluetunConfig>)
    ensures Titles(SectionFor(services, id, step, config)) == TitleOf(services, id, step)
  {
    if Get(services, id).Some? {
      SectionTitles(id, Get(services, id).value, step, config);
    }
  }

  /** The titles numbered from `step` by position. */
  function TitleList(services: Services, ids: seq<string>, step: nat): seq<seq<string>> {
    seq(|ids|, k requires 0 <= k < |ids| => TitleOf(services, ids[k], step + k))
  }

  lemma TitleListTail(services: Services, ids: seq<string>, step: nat)
    requires |ids| > 0
    ensures Flatten(TitleList(services, ids, step)) ==
      TitleOf(services, ids[0], step) + Flatten(TitleList(services, ids[1..], step + 1))
  {
    var e := TitleList(services, ids, step);
    var later := TitleList(services, ids[1..], step + 1);
    assert e[1..] == later by {
      forall k | 0 <= k < |ids| - 1 ensures e[1..][k] == later[k] {
        assert ids[1..][k] == ids[k + 1];
      }
    }
  }

  /**
   * The section titles are, in order, one per id found in the catalog, each
   * numbered by the id's position in the sorted list (from 1): a missing id is
   * skipped but keeps its number.
   */
  lemma {:induction false} SectionNumbering(ids: seq<string>, services: Services, config: Option<GluetunConfig>, step: nat)
    ensures Titles(ServiceSections(ids, services, config, step)) ==
      Flatten(seq(|ids|, k requires 0 <= k < |ids| => TitleOf(services, ids[k], step + k)))
  {
    if |ids| > 0 {
      SectionNumbering(ids[1..], services, config, step + 1);
      TitlesAppend(SectionFor(services, ids[0], step, config), ServiceSections(ids[1..], services, config, step + 1));
      SectionForTitles(services, ids[0], step, config);
      TitleListTail(services, ids, step);
    }
  }

  // ---------------------------------------------------------------------------
  // The VPN section

  // The longer fixed lines are written in two pieces, so that the verifier can
  // see their first characters.
  const ArrHostNote: string := "- Use `gluetun` as the qBittorrent " + "host (not `qbittorrent`)"
  const ArrPortsNote: string := "- qBittorrent's web UI is accessible " + "through Gluetun's ports"
  const VpnSummary: string := "Your VPN (Gluetun) has been " + "configured with the following:"

  const VpnIntro: seq<string> := ["## VPN Configuration", "", VpnSummary, ""]

  const VpnTesting: seq<string> := [
    "", "**Testing VPN Connection:**", "```bash", "# Test VPN connection",
    "docker exec gluetun wget -qO- ifconfig.me", "", "# Check Gluetun logs", "docker logs gluetun", "```", ""
  ]

  /** The note for the *arr applications, when qBittorrent is routed through the VPN. */
  function ArrNote(c: GluetunConfig): seq<string> {
    if c.routeQbittorrent then
      ["**Important for *arr Apps:**", ArrHostNote, ArrPortsNote, ""]
    else []
  }

  /** `_generate_vpn_setup_section`. */
  function VpnSection(c: GluetunConfig): seq<string> {
    if c.enabled then VpnIntro + ProviderLines(c) + (VpnTesting + ArrNote(c))
    else VpnIntro[..2]
  }

  /** The provider's key as the configurator stores it. */
  function ProviderKey(c: GluetunConfig): string
    requires c.provider.Known?
  {
    c.provider.provider.key
  }

  const ProviderPrefix: string := "- **Provider:** "
  const ProtocolPrefix: string := "- **Protocol:** "
  const CountriesPrefix: string := "- **Server Countries:** "
  const RoutingPrefix: string := "- **qBittorrent Routing:** "

  function RoutingLine(c: GluetunConfig): string {
    RoutingPrefix + (if c.routeQbittorrent then "Enabled (traffic goes through VPN)" else "Disabled (direct connection)")
  }

  /** Provider, protocol, countries and routing, for a provider from the table. */
  function ProviderLines(c: GluetunConfig): seq<string> {
    if c.provider.Known? then
      [ProviderPrefix + Title(ProviderKey(c)), ProtocolPrefix + Upper(c.vpnType.Name())]
        + (if c.serverCountries != "" then [CountriesPrefix + c.serverCountries] else [])
        + [RoutingLine(c)]
    else []
  }

  /** Whether some line starts with the given text. */
  predicate HasLineStarting(lines: seq<string>, prefix: string) {
    exists i | 0 <= i < |lines| :: StartsWith(lines[i], prefix)
  }

  /** No line is a bullet in bold, the form of the provider lines. */
  predicate NoBoldBullet(lines: seq<string>) {
    forall i | 0 <= i < |lines| :: !StartsWith(lines[i], "- **")
  }

  /** A line whose first or third character rules it out is not a bold bullet. */
  lemma NotBold(s: string)
    requires |s| < 4 || s[0] != '-' || s[2] != '*'
    ensures !StartsWith(s, "- **")
  {
    if |s| >= 4 {
      assert s[..4][0] == s[0] && s[..4][2] == s[2];
    }
  }

  lemma LinesNotBold(lines: seq<string>)
    requires forall i | 0 <= i < |lines| :: |lines[i]| < 4 || lines[i][0] != '-' || lines[i][2] != '*'
    ensures NoBoldBullet(lines)
  {
    forall i | 0 <= i < |lines| ensures !StartsWith(lines[i], "- **") {
      NotBold(lines[i]);
    }
  }

  lemma NoBoldAppend(a: seq<string>, b: seq<string>)
    requires NoBoldBullet(a) && NoBoldBullet(b)
    ensures NoBoldBullet(a + b)
  {
    forall i | 0 <= i < |a + b| ensures !StartsWith((a + b)[i], "- **") {
      if i >= |a| {
        assert (a + b)[i] == b[i - |a|];
      }
    }
  }

  /** The fixed lines of the section are not bold bullets, and only the note names the *arr host. */
  lemma FixedNotBold(c: GluetunConfig)
    ensures NoBoldBullet(VpnIntro) && NoBoldBullet(VpnTesting + ArrNote(c))
    ensures ArrHostNote !in VpnIntro && ArrHostNote !in VpnTesting
    ensures ArrHostNote in ArrNote(c) <==> c.routeQbittorrent
  {
    forall i | 0 <= i < 4 ensures !StartsWith(VpnIntro[i], "- **") {
      NotBold(VpnIntro[i]);
    }
    LinesNotBold(VpnTesting);
    if c.routeQbittorrent {
      var note := ArrNote(c);
      forall i | 0 <= i < 4 ensures !StartsWith(note[i], "- **") {
        NotBold(note[i]);
      }
    }
    NoBoldAppend(VpnTesting, ArrNote(c));
  }

  /** The lines of a provider from the table. */
  lemma KnownProviderLines(c: GluetunConfig)
    requires c.provider.Known?
    ensures var p := ProviderLines(c);
      && |p| >= 3
      && StartsWith(p[0], ProviderPrefix) && StartsWith(p[1], ProtocolPrefix)
      && StartsWith(p[|p| - 1], RoutingPrefix)
      && (c.serverCountries != "" ==> |p| == 4 && StartsWith(p[2], CountriesPrefix))
      && (c.serverCountries == "" ==> |p| == 3)
  {
    var a := ProviderPrefix + Title(ProviderKey(c));
    var b := ProtocolPrefix + Upper(c.vpnType.Name());
    assert a[..|ProviderPrefix|] == ProviderPrefix;
    assert b[..|ProtocolPrefix|] == ProtocolPrefix;
    assert RoutingLine(c)[..|RoutingPrefix|] == RoutingPrefix;
    if c.serverCountries != "" {
      var m := CountriesPrefix + c.serverCountries;
      assert m[..|CountriesPrefix|] == CountriesPrefix;
    }
  }

  /** Where the fifth characters differ, one line cannot start with the other's prefix. */
  lemma FifthDiffers(s: string, p: string, q: string)
    requires StartsWith(s, p) && |p| >= 5 && |q| >= 5 && p[4] != q[4]
    ensures !StartsWith(s, q)
  {
    assert s[..|p|][4] == s[4];
    if |q| <= |s| {
      assert s[..|q|][4] == s[4];
    }
  }

  /** Bold bullets with the provider, protocol, optional countries and routing prefixes. */
  lemma ProviderShape(p: seq<string>)
    requires 3 <= |p| <= 4
    requires StartsWith(p[0], ProviderPrefix) && StartsWith(p[1], ProtocolPrefix)
    requires StartsWith(p[|p| - 1], RoutingPrefix)
    requires |p| == 4 ==> StartsWith(p[2], CountriesPrefix)
    ensures HasLineStarting(p, ProviderPrefix) && HasLineStarting(p, ProtocolPrefix)
    ensures HasLineStarting(p, CountriesPrefix) <==> |p| == 4
    ensures ArrHostNote !in p
  {
    assert ArrHostNote[2] == 'U';
    forall i | 0 <= i < |p| ensures p[i] != ArrHostNote && p[i][2] == '*' {
      if i == 0 { assert p[0][..|ProviderPrefix|][2] == p[0][2]; }
      else if i == |p| - 1 { assert p[i][..|RoutingPrefix|][2] == p[i][2]; }
      else if i == 1 { assert p[1][..|ProtocolPrefix|][2] == p[1][2]; }
      else { assert p[2][..|CountriesPrefix|][2] == p[2][2]; }
    }
    if |p| == 3 {
      FifthDiffers(p[0], ProviderPrefix, CountriesPrefix);
      FifthDiffers(p[1], ProtocolPrefix, CountriesPrefix);
      FifthDiffers(p[2], RoutingPrefix, CountriesPrefix);
    }
  }

  /** Which prefixed lines the provider lines hold. */
  lemma ProviderLinesContents(c: GluetunConfig)
    ensures var p := ProviderLines(c);
      && (HasLineStarting(p, ProviderPrefix) <==> c.provider.Known?)
      && (HasLineStarting(p, ProtocolPrefix) <==> c.provider.Known?)
      && (HasLineStarting(p, CountriesPrefix) <==> c.provider.Known? && c.serverCountries != "")
      && ArrHostNote !in p
  {
    if c.provider.Known? {
      KnownProviderLines(c);
      ProviderShape(ProviderLines(c));
    }
  }

  /** Lines around the provider lines never start with a provider-line prefix. */
  lemma PrefixedIn(fixed: seq<string>, p: seq<string>, rest: seq<string>, prefix: string)
    requires NoBoldBullet(fixed) && NoBoldBullet(rest)
    requires |prefix| >= 4 && prefix[..4] == "- **"
    ensures HasLineStarting(fixed + p + rest, prefix) <==> HasLineStarting(p, prefix)
  {
    var all := fixed + p + rest;
    if HasLineStarting(all, prefix) {
      var i :| 0 <= i < |all| && StartsWith(all[i], prefix);
      assert all[i][..4] == prefix[..4];
      if i < |fixed| {
        assert false;
      } else if i < |fixed| + |p| {
        assert all[i] == p[i - |fixed|];
      } else {
        assert false;
      }
    }
    if HasLineStarting(p, prefix) {
      var i :| 0 <= i < |p| && StartsWith(p[i], prefix);
      assert all[|fixed| + i] == p[i];
    }
  }

  /**
   * The VPN section lists provider and protocol exactly when a provider from the
   * table is set, the countries exactly when also some were given, and the note
   * on the *arr host exactly when qBittorrent is routed through the VPN.
   */
  lemma VpnSectionContents(c: GluetunConfig)
    requires c.enabled
    ensures var r := VpnSection(c);
      && (HasLineStarting(r, ProviderPrefix) <==> c.provider.Known?)
      && (HasLineStarting(r, ProtocolPrefix) <==> c.provider.Known?)
      && (HasLineStarting(r, CountriesPrefix) <==> c.provider.Known? && c.serverCountries != "")
      && (ArrHostNote in r <==> c.routeQbittorrent)
  {
    var p := ProviderLines(c);
    var rest := VpnTesting + ArrNote(c);
    FixedNotBold(c);
    ProviderLinesContents(c);
    PrefixedIn(VpnIntro, p, rest, ProviderPrefix);
    PrefixedIn(VpnIntro, p, rest, ProtocolPrefix);
    PrefixedIn(VpnIntro, p, rest, CountriesPrefix);
  }

  // ---------------------------------------------------------------------------
  // Troubleshooting

  const QbitIssues: string := "**qBittorrent Issues:**"
  const ArrIssues: string := "***arr App Issues:**"
  const VpnIssues: string := "**VPN (Gluetun) Issues:**"

  /** Any of Sonarr, Radarr and Lidarr is selected. */
  predicate ArrSelected(selected: seq<string>) {
    "sonarr" in selected || "radarr" in selected || "lidarr" in selected
  }

  const CommonIssues: seq<string> := [
    "## Troubleshooting", "", "### Common Issues", "", "**Can't access web interfaces:**",
    "1. Check containers " + "are running: `docker compose ps`", "2. Check firewall settings",
    "3. Try server IP " + "instead of localhost", ""
  ]

  const GeneralDebugging: seq<string> := [
    "### General Debugging", "", "**Check container status:**", "```bash", "docker compose ps", "```", "",
    "**View logs:**", "```bash", "docker compose logs -f [service_name]", "```", "",
    "**Restart services:**", "```bash", "docker compose restart [service_name]", "```", ""
  ]

  const QbitItems: seq<string> := [
    "Initial password: Check logs with `docker logs qbittorrent`",
    "If using VPN: Access via Gluetun's ports",
    "*arr apps should use 'gluetun' as host if VPN is enabled"
  ]

  const ArrItems: seq<string> := [
    "Use internal Docker hostnames (not localhost)",
    "qBittorrent host: Use 'gluetun' if VPN enabled, 'qbittorrent' if not",
    "Check indexer connectivity in Settings > Indexers"
  ]

  const VpnItems: seq<string> := [
    "Check logs: `docker logs gluetun`",
    "Verify credentials in docker-compose.yml",
    "Test connection: `docker exec gluetun wget -qO- ifconfig.me`"
  ]

  function QbitBlock(selected: seq<string>): seq<string> {
    if "qbittorrent" in selected then Block(QbitIssues, QbitItems) else []
  }

  function ArrBlock(selected: seq<string>): seq<string> {
    if ArrSelected(selected) then Block(ArrIssues, ArrItems) else []
  }

  function VpnBlock(selected: seq<string>): seq<string> {
    if "gluetun" in selected then Block(VpnIssues, VpnItems) else []
  }

  /** `_generate_troubleshooting_section`. */
  function Troubleshooting(selected: seq<string>): (r: seq<string>)
    ensures |r| >= |CommonIssues| + |GeneralDebugging|
  {
    CommonIssues + QbitBlock(selected) + ArrBlock(selected) + VpnBlock(selected) + GeneralDebugging
  }

  /** The three issue headings differ from each other and open with `*`. */
  lemma IssueHeadingsDiffer()
    ensures QbitIssues[0] == '*' && ArrIssues[0] == '*' && VpnIssues[0] == '*'
    ensures QbitIssues != ArrIssues && QbitIssues != VpnIssues && ArrIssues != VpnIssues
  {
    assert QbitIssues[2] == 'q' && ArrIssues[2] == '*' && VpnIssues[2] == 'V';
  }

  lemma QbitBlockHeadings(selected: seq<string>)
    ensures QbitIssues in QbitBlock(selected) <==> "qbittorrent" in selected
    ensures ArrIssues !in QbitBlock(selected) && VpnIssues !in QbitBlock(selected)
  {
    IssueHeadingsDiffer();
    BlockExcludes(QbitIssues, QbitItems, ArrIssues);
    BlockExcludes(QbitIssues, QbitItems, VpnIssues);
  }

  lemma ArrBlockHeadings(selected: seq<string>)
    ensures ArrIssues in ArrBlock(selected) <==> ArrSelected(selected)
    ensures QbitIssues !in ArrBlock(selected) && VpnIssues !in ArrBlock(selected)
  {
    IssueHeadingsDiffer();
    BlockExcludes(ArrIssues, ArrItems, QbitIssues);
    BlockExcludes(ArrIssues, ArrItems, VpnIssues);
  }

  lemma VpnBlockHeadings(selected: seq<string>)
    ensures VpnIssues in VpnBlock(selected) <==> "gluetun" in selected
    ensures QbitIssues !in VpnBlock(selected) && ArrIssues !in VpnBlock(selected)
  {
    IssueHeadingsDiffer();
    BlockExcludes(VpnIssues, VpnItems, QbitIssues);
    BlockExcludes(VpnIssues, VpnItems, ArrIssues);
  }

  lemma FixedLacksIssues()
    ensures QbitIssues !in CommonIssues && ArrIssues !in CommonIssues && VpnIssues !in CommonIssues
    ensures QbitIssues !in GeneralDebugging && ArrIssues !in GeneralDebugging && VpnIssues !in GeneralDebugging
  {
    CommonLacksIssues();
    DebuggingLacksIssues();
  }

  lemma CommonLacksIssues()
    ensures QbitIssues !in CommonIssues && ArrIssues !in CommonIssues && VpnIssues !in CommonIssues
  { }

  lemma DebuggingLacksIssues()
    ensures QbitIssues !in GeneralDebugging && ArrIssues !in GeneralDebugging && VpnIssues !in GeneralDebugging
  { }

  /** Membership in five concatenated parts. */
  lemma InFive(a: seq<string>, b: seq<string>, c: seq<string>, d: seq<string>, e: seq<string>, x: string)
    ensures x in a + b + c + d + e <==> x in a || x in b || x in c || x in d || x in e
    ensures (a + b + c + d + e)[..|a|] == a && (a + b + c + d + e)[|a + b + c + d + e| - |e|..] == e
  {
    assert (a + b + c + d + e)[..|a|] == a;
    assert (a + b + c + d + e)[|a + b + c + d + e| - |e|..] == e;
  }

  /**
   * Troubleshooting always has the common issues and the general debugging
   * parts; it has the qBittorrent block exactly when qBittorrent is selected,
   * the *arr block exactly when Sonarr, Radarr or Lidarr is, and the VPN block
   * exactly when Gluetun is.
   */
  lemma TroubleshootingBlocks(selected: seq<string>)
    ensures var r := Troubleshooting(selected);
      && r[..|CommonIssues|] == CommonIssues
      && r[|r| - |GeneralDebugging|..] == GeneralDebugging
      && (QbitIssues in r <==> "qbittorrent" in selected)
      && (ArrIssues in r <==> ArrSelected(selected))
      && (VpnIssues in r <==> "gluetun" in selected)
  {
    var q := QbitBlock(selected);
    var a := ArrBlock(selected);
    var v := VpnBlock(selected);
    QbitBlockHeadings(selected);
    ArrBlockHeadings(selected);
    VpnBlockHeadings(selected);
    FixedLacksIssues();
    InFive(CommonIssues, q, a, v, GeneralDebugging, QbitIssues);
    InFive(CommonIssues, q, a, v, GeneralDebugging, ArrIssues);
    InFive(CommonIssues, q, a, v, GeneralDebugging, VpnIssues);
  }

  // ---------------------------------------------------------------------------
  // The guide

  /**
   * `_generate_setup_guide`: the formatted header, the numbered service sections
   * in priority order, the VPN section when the VPN is on, troubleshooting, and
   * the footer.
   */
  function SetupGuide(selected: seq<string>, services: Services, config: Option<GluetunConfig>,
                      header: string, footer: string): (r: seq<string>)
    ensures |r| >= 3 + |CommonIssues| + |GeneralDebugging| && r[0] == header && r[|r| - 1] == footer
  {
    [header] + GuideBody(selected, services, config) + [footer]
  }

  /** Everything between the header and the footer. */
  function GuideBody(selected: seq<string>, services: Services, config: Option<GluetunConfig>): (r: seq<string>)
    ensures |r| >= 2 + |CommonIssues| + |GeneralDebugging|
  {
    Configuration(selected, services, config) + Troubleshooting(selected)
  }

  const ServiceChapter: string := "## Service Configuration\n"
  const ServiceIntro: string := "Configure each service in the order " + "shown below for best results:\n"

  /** The introduction, the numbered service sections and the VPN section. */
  function Configuration(selected: seq<string>, services: Services, config: Option<GluetunConfig>): (r: seq<string>)
    ensures |r| >= 2
  {
    [ServiceChapter, ServiceIntro]
      + ServiceSections(SortByPriority(selected), services, config, 1)
      + (if VpnOn(config) then VpnSection(config.value) else [])
  }

  // ---------------------------------------------------------------------------
  // The outline of the guide

  const VpnChapter: string := "## VPN Configuration"
  const TroubleshootingChapter: string := "## Troubleshooting"

  /** A line opening with "##", the start of every Markdown heading the guide uses. */
  predicate OpensHeading(s: string) {
    |s| >= 2 && s[0] == '#' && s[1] == '#'
  }

  predicate NoHeadings(lines: seq<string>) {
    forall i | 0 <= i < |lines| :: !OpensHeading(lines[i])
  }

  lemma {:induction false} NoHeadingsFree(lines: seq<string>, marker: string)
    requires NoHeadings(lines) && |marker| >= 2 && marker[0] == '#' && marker[1] == '#'
    ensures Headings(lines, marker) == []
  {
    if |lines| > 0 {
      NoHeadingsFree(lines[1..], marker);
      if |lines[0]| >= |marker| {
        assert lines[0][..|marker|][0] == lines[0][0] && lines[0][..|marker|][1] == lines[0][1];
      }
    }
  }

  /** Lines with no heading have neither titles nor chapters. */
  lemma Unheaded(lines: seq<string>)
    requires NoHeadings(lines)
    ensures Titles(lines) == [] && Chapters(lines) == []
  {
    NoHeadingsFree(lines, "### ");
    NoHeadingsFree(lines, "## ");
  }

  lemma NoHeadingsAppend(a: seq<string>, b: seq<string>)
    requires NoHeadings(a) && NoHeadings(b)
    ensures NoHeadings(a + b)
  {
    forall i | 0 <= i < |a + b| ensures !OpensHeading((a + b)[i]) {
      if i >= |a| {
        assert (a + b)[i] == b[i - |a|];
      }
    }
  }

  /** The headings of one line followed by more lines. */
  lemma HeadingsCons(line: string, rest: seq<string>, marker: string)
    ensures Headings([line] + rest, marker) == (if StartsWith(line, marker) then [line] else []) + Headings(rest, marker)
  {
    assert ([line] + rest)[1..] == rest;
  }

  lemma BlockNoHeadings(heading: string, items: seq<string>)
    requires |heading| > 0 && heading[0] == '*'
    ensures NoHeadings(Block(heading, items))
  {
    var b := Block(heading, items);
    forall i | 0 <= i < |b| ensures !OpensHeading(b[i]) {
      if 0 < i < |b| - 1 {
        assert b[i] == Bullets(items)[i - 1];
      }
    }
  }

  lemma BlocksNoHeadings(svc: Service, config: Option<GluetunConfig>)
    ensures NoHeadings(SectionBlocks(svc, config))
  {
    var steps := Block(StepsHeading, StepTexts(svc.setupSteps, config));
    var notes := Block(NotesHeading, svc.configNotes);
    BlockNoHeadings(StepsHeading, StepTexts(svc.setupSteps, config));
    BlockNoHeadings(NotesHeading, svc.configNotes);
    BlockNoHeadings(WarningsHeading, svc.warnings);
    NoHeadingsAppend(steps, notes);
    NoHeadingsAppend(steps + notes, Block(WarningsHeading, svc.warnings));
  }

  lemma HeadRestNoHeadings(id: string, svc: Service, step: nat, config: Option<GluetunConfig>)
    ensures NoHeadings(SectionHead(id, svc, step, config)[1..])
  {
    var portInfo := PortInfo(id, svc, config);
    assert AccessLine(svc, portInfo)[0] == '*';
  }

  /** A section is its title followed by the rest of its lines. */
  lemma SectionRestSplit(id: string, svc: Service, step: nat, config: Option<GluetunConfig>)
    ensures ServiceSection(id, svc, step, config) ==
      [StepTitle(step, DisplayName(id, svc))] + (SectionHead(id, svc, step, config)[1..] + SectionBlocks(svc, config) + ["---", ""])
  {
    var head := SectionHead(id, svc, step, config);
    var blocks := SectionBlocks(svc, config);
    assert head == [head[0]] + head[1..];
    assert head + blocks + ["---", ""] == [head[0]] + (head[1..] + blocks + ["---", ""]);
  }

  /** Below its title a section holds no heading. */
  lemma SectionRestNoHeadings(id: string, svc: Service, step: nat, config: Option<GluetunConfig>)
    ensures ServiceSection(id, svc, step, config) ==
      [StepTitle(step, DisplayName(id, svc))] + (SectionHead(id, svc, step, config)[1..] + SectionBlocks(svc, config) + ["---", ""])
    ensures NoHeadings(SectionHead(id, svc, step, config)[1..] + SectionBlocks(svc, config) + ["---", ""])
  {
    var rest := SectionHead(id, svc, step, config)[1..];
    SectionRestSplit(id, svc, step, config);
    HeadRestNoHeadings(id, svc, step, config);
    BlocksNoHeadings(svc, config);
    NoHeadingsAppend(rest, SectionBlocks(svc, config));
    NoHeadingsAppend(rest + SectionBlocks(svc, config), ["---", ""]);
  }

  /** A level-three title followed by lines without headings opens no chapter. */
  lemma TitledLines(title: string, rest: seq<string>)
    requires StartsWith(title, "### ") && NoHeadings(rest)
    ensures Chapters([title] + rest) == []
  {
    Unheaded(rest);
    HeadingsCons(title, rest, "## ");
    assert title[..4][2] == '#';
  }

  /** A service section is no chapter: its only heading is its level-three title. */
  lemma SectionChapters(id: string, svc: Service, step: nat, config: Option<GluetunConfig>)
    ensures Chapters(ServiceSection(id, svc, step, config)) == []
  {
    SectionRestNoHeadings(id, svc, step, config);
    StepTitleStarts(step, DisplayName(id, svc));
    TitledLines(StepTitle(step, DisplayName(id, svc)),
                SectionHead(id, svc, step, config)[1..] + SectionBlocks(svc, config) + ["---", ""]);
  }

  lemma {:induction false} SectionsChapters(ids: seq<string>, services: Services, config: Option<GluetunConfig>, step: nat)
    ensures Chapters(ServiceSections(ids, services, config, step)) == []
    decreases |ids|
  {
    if |ids| > 0 {
      SectionsChapters(ids[1..], services, config, step + 1);
      HeadingsAppend(SectionFor(services, ids[0], step, config), ServiceSections(ids[1..], services, config, step + 1), "## ");
      if Get(services, ids[0]).Some? {
        SectionChapters(ids[0], Get(services, ids[0]).value, step, config);
      }
    }
  }

  lemma ProviderLinesNoHeadings(c: GluetunConfig)
    ensures NoHeadings(ProviderLines(c))
  {
    var p := ProviderLines(c);
    forall i | 0 <= i < |p| ensures !OpensHeading(p[i]) {
      assert p[i][0] == '-';
    }
  }

  lemma VpnFixedNoHeadings(c: GluetunConfig)
    ensures NoHeadings(VpnIntro[1..]) && NoHeadings(VpnTesting + ArrNote(c))
  {
    assert VpnSummary[0] == 'Y';
    assert NoHeadings(VpnTesting);
    assert ArrHostNote[0] == '-' && ArrPortsNote[0] == '-';
    assert NoHeadings(ArrNote(c));
    NoHeadingsAppend(VpnTesting, ArrNote(c));
  }

  /** Below its chapter heading the VPN section holds no heading. */
  lemma VpnRestNoHeadings(c: GluetunConfig)
    requires c.enabled
    ensures VpnSection(c) == [VpnChapter] + (VpnIntro[1..] + ProviderLines(c) + (VpnTesting + ArrNote(c)))
    ensures NoHeadings(VpnIntro[1..] + ProviderLines(c) + (VpnTesting + ArrNote(c)))
  {
    ProviderLinesNoHeadings(c);
    VpnFixedNoHeadings(c);
    NoHeadingsAppend(VpnIntro[1..], ProviderLines(c));
    NoHeadingsAppend(VpnIntro[1..] + ProviderLines(c), VpnTesting + ArrNote(c));
  }

  /** The VPN section is one chapter with no titles. */
  lemma VpnSectionOutline(c: GluetunConfig)
    requires c.enabled
    ensures Titles(VpnSection(c)) == [] && Chapters(VpnSection(c)) == [VpnChapter]
  {
    var rest := VpnIntro[1..] + ProviderLines(c) + (VpnTesting + ArrNote(c));
    VpnRestNoHeadings(c);
    Unheaded(rest);
    HeadingsCons(VpnChapter, rest, "### ");
    HeadingsCons(VpnChapter, rest, "## ");
    assert VpnChapter[..3] == "## " && VpnChapter[..4][2] != '#';
  }

  /** A line opening with "## " is a chapter heading and no title. */
  lemma ChapterLine(s: string)
    requires |s| >= 3 && s[0] == '#' && s[1] == '#' && s[2] == ' '
    ensures StartsWith(s, "## ") && !StartsWith(s, "### ")
  {
    assert s[..3] == "## ";
    if |s| >= 4 {
      assert s[..4][2] != "### "[2];
    }
  }

  /** A line opening with "### " is a title and no chapter heading. */
  lemma TitleLine(s: string)
    requires |s| >= 4 && s[0] == '#' && s[1] == '#' && s[2] == '#' && s[3] == ' '
    ensures StartsWith(s, "### ") && !StartsWith(s, "## ")
  {
    assert s[..4] == "### ";
    assert s[..3][2] != "## "[2];
  }

  /** A heading line followed by lines without headings. */
  lemma HeadedBy(line: string, rest: seq<string>, marker: string)
    requires NoHeadings(rest) && |marker| >= 2 && marker[0] == '#' && marker[1] == '#'
    ensures Headings([line] + rest, marker) == if StartsWith(line, marker) then [line] else []
  {
    NoHeadingsFree(rest, marker);
    HeadingsCons(line, rest, marker);
  }

  lemma CommonIssuesRest()
    ensures NoHeadings(CommonIssues[3..])
  {
    var rest := CommonIssues[3..];
    assert |rest| == 6;
    assert rest[1][0] == '*' && rest[2][0] == '1' && rest[3][0] == '2' && rest[4][0] == '3';
    assert rest[0] == "" && rest[5] == "";
  }

  /** A chapter heading, a blank line, a title, then lines without headings. */
  lemma ChapterThenTitle(lines: seq<string>)
    requires |lines| >= 3 && lines[1] == "" && NoHeadings(lines[3..])
    requires |lines[0]| >= 3 && lines[0][0] == '#' && lines[0][1] == '#' && lines[0][2] == ' '
    requires |lines[2]| >= 4 && lines[2][0] == '#' && lines[2][1] == '#' && lines[2][2] == '#' && lines[2][3] == ' '
    ensures Titles(lines) == [lines[2]] && Chapters(lines) == [lines[0]]
  {
    var c0, c1, c2, rest := lines[0], lines[1], lines[2], lines[3..];
    assert lines == [c0] + ([c1] + ([c2] + rest));
    ChapterLine(c0);
    TitleLine(c2);
    HeadedBy(c2, rest, "### ");
    HeadedBy(c2, rest, "## ");
    HeadingsCons(c1, [c2] + rest, "### ");
    HeadingsCons(c1, [c2] + rest, "## ");
    HeadingsCons(c0, [c1] + ([c2] + rest), "### ");
    HeadingsCons(c0, [c1] + ([c2] + rest), "## ");
  }

  /** The common issues open the troubleshooting chapter and hold its first title. */
  lemma CommonIssuesOutline()
    ensures Titles(CommonIssues) == ["### Common Issues"] && Chapters(CommonIssues) == [TroubleshootingChapter]
  {
    CommonIssuesRest();
    var c0, c2 := CommonIssues[0], CommonIssues[2];
    assert c0[0] == '#' && c0[1] == '#' && c0[2] == ' ';
    assert c2[0] == '#' && c2[1] == '#' && c2[2] == '#' && c2[3] == ' ';
    ChapterThenTitle(CommonIssues);
  }

  lemma GeneralDebuggingRest()
    ensures NoHeadings(GeneralDebugging[1..])
  {
    var rest := GeneralDebugging[1..];
    forall i | 0 <= i < |rest| ensures !OpensHeading(rest[i]) {
      assert rest[i] == GeneralDebugging[i + 1];
      assert GeneralDebugging[i + 1] == "" || GeneralDebugging[i + 1][0] != '#';
    }
  }

  /** A title followed by lines without headings. */
  lemma TitleThenPlain(lines: seq<string>)
    requires |lines| > 0 && NoHeadings(lines[1..])
    requires |lines[0]| >= 4 && lines[0][0] == '#' && lines[0][1] == '#' && lines[0][2] == '#' && lines[0][3] == ' '
    ensures Titles(lines) == [lines[0]] && Chapters(lines) == []
  {
    assert lines == [lines[0]] + lines[1..];
    TitleLine(lines[0]);
    HeadedBy(lines[0], lines[1..], "### ");
    HeadedBy(lines[0], lines[1..], "## ");
  }

  /** The general debugging part holds the last title and no chapter. */
  lemma GeneralDebuggingOutline()
    ensures Titles(GeneralDebugging) == ["### General Debugging"] && Chapters(GeneralDebugging) == []
  {
    GeneralDebuggingRest();
    var g0 := GeneralDebugging[0];
    assert g0[0] == '#' && g0[1] == '#' && g0[2] == '#' && g0[3] == ' ';
    TitleThenPlain(GeneralDebugging);
  }

  /** The issue blocks in the middle of the chapter hold no heading. */
  lemma IssueBlocksNoHeadings(selected: seq<string>)
    ensures NoHeadings(QbitBlock(selected) + ArrBlock(selected) + VpnBlock(selected))
  {
    IssueHeadingsDiffer();
    BlockNoHeadings(QbitIssues, QbitItems);
    BlockNoHeadings(ArrIssues, ArrItems);
    BlockNoHeadings(VpnIssues, VpnItems);
    NoHeadingsAppend(QbitBlock(selected), ArrBlock(selected));
    NoHeadingsAppend(QbitBlock(selected) + ArrBlock(selected), VpnBlock(selected));
  }

  /** Headings of three parts whose middle part has none. */
  lemma AroundPlain(a: seq<string>, mid: seq<string>, b: seq<string>, marker: string)
    requires NoHeadings(mid) && |marker| >= 2 && marker[0] == '#' && marker[1] == '#'
    ensures Headings(a + mid + b, marker) == Headings(a, marker) + Headings(b, marker)
  {
    NoHeadingsFree(mid, marker);
    HeadingsAppend(a, mid, marker);
    assert Headings(a, marker) + [] == Headings(a, marker);
    HeadingsAppend(a + mid, b, marker);
  }

  lemma Regroup(c: seq<string>, q: seq<string>, a: seq<string>, v: seq<string>, g: seq<string>)
    ensures c + q + a + v + g == c + (q + a + v) + g
  {
  }

  /** The outline of a chapter framed by the common issues and general debugging parts. */
  lemma FramedOutline(t: seq<string>, c: seq<string>, issues: seq<string>, g: seq<string>)
    requires t == c + issues + g && NoHeadings(issues)
    requires Titles(c) == ["### Common Issues"] && Chapters(c) == [TroubleshootingChapter]
    requires Titles(g) == ["### General Debugging"] && Chapters(g) == []
    ensures Titles(t) == ["### Common Issues", "### General Debugging"] && Chapters(t) == [TroubleshootingChapter]
  {
    AroundPlain(c, issues, g, "### ");
    AroundPlain(c, issues, g, "## ");
  }

  /** Troubleshooting is one chapter whose titles are the common issues and general debugging. */
  lemma TroubleshootingOutline(selected: seq<string>)
    ensures Titles(Troubleshooting(selected)) == ["### Common Issues", "### General Debugging"]
    ensures Chapters(Troubleshooting(selected)) == [TroubleshootingChapter]
  {
    var issues := QbitBlock(selected) + ArrBlock(selected) + VpnBlock(selected);
    Regroup(CommonIssues, QbitBlock(selected), ArrBlock(selected), VpnBlock(selected), GeneralDebugging);
    IssueBlocksNoHeadings(selected);
    CommonIssuesOutline();
    GeneralDebuggingOutline();
    FramedOutline(Troubleshooting(selected), CommonIssues, issues, GeneralDebugging);
  }

  /** The introduction is the first chapter heading and holds no title. */
  lemma IntroOutline()
    ensures var intro := [ServiceChapter, ServiceIntro];
      Titles(intro) == [] && Chapters(intro) == [ServiceChapter]
  {
    assert ServiceIntro[0] == 'C';
    assert NoHeadings([ServiceIntro]);
    assert ServiceChapter[0] == '#' && ServiceChapter[1] == '#' && ServiceChapter[2] == ' ';
    ChapterLine(ServiceChapter);
    HeadedBy(ServiceChapter, [ServiceIntro], "### ");
    HeadedBy(ServiceChapter, [ServiceIntro], "## ");
  }

  /**
   * The outline of the guide between its header and footer. Its level-three titles
   * are the numbered titles of the selected services in priority order (a
   * service missing from the catalog keeps its number but has no title), then
   * "Common Issues" and "General Debugging". Its chapters are the service
   * configuration, the VPN configuration exactly when the VPN is on, and
   * troubleshooting.
   */
  lemma GuideOutline(selected: seq<string>, services: Services, config: Option<GluetunConfig>,
                     header: string, footer: string)
    ensures var r := SetupGuide(selected, services, config, header, footer);
      && r[0] == header && r[|r| - 1] == footer
      && Titles(r[1..|r| - 1]) ==
           Flatten(TitleList(services, SortByPriority(selected), 1)) + ["### Common Issues", "### General Debugging"]
      && Chapters(r[1..|r| - 1]) ==
           [ServiceChapter] + (if VpnOn(config) then [VpnChapter] else []) + [TroubleshootingChapter]
  {
    var body := GuideBody(selected, services, config);
    var ids := SortByPriority(selected);
    var sections := ServiceSections(ids, services, config, 1);
    var vpn := if VpnOn(config) then VpnSection(config.value) else [];
    GuideFrame(selected, services, config, header, footer);
    IntroOutline();
    SectionNumbering(ids, services, config, 1);
    SectionsChapters(ids, services, config, 1);
    if VpnOn(config) {
      VpnSectionOutline(config.value);
    }
    TroubleshootingOutline(selected);
    BodyOutline(body, [ServiceChapter, ServiceIntro], sections, vpn, Troubleshooting(selected),
                Flatten(TitleList(services, ids, 1)), VpnOn(config));
  }

  /** The guide is its header, the body and its footer. */
  lemma GuideFrame(selected: seq<string>, services: Services, config: Option<GluetunConfig>,
                   header: string, footer: string)
    ensures var r := SetupGuide(selected, services, config, header, footer);
      && r[0] == header && r[|r| - 1] == footer && r[1..|r| - 1] == GuideBody(selected, services, config)
    ensures GuideBody(selected, services, config) ==
      [ServiceChapter, ServiceIntro] + ServiceSections(SortByPriority(selected), services, config, 1)
        + (if VpnOn(config) then VpnSection(config.value) else []) + Troubleshooting(selected)
  {
  }

  /** The outline of the four parts of the body, from the outline of each. */
  lemma BodyOutline(body: seq<string>, intro: seq<string>, sections: seq<string>, vpn: seq<string>,
                    trouble: seq<string>, numbered: seq<string>, vpnOn: bool)
    requires body == intro + sections + vpn + trouble
    requires Titles(intro) == [] && Chapters(intro) == [ServiceChapter]
    requires Titles(sections) == numbered && Chapters(sections) == []
    requires vpnOn ==> Titles(vpn) == [] && Chapters(vpn) == [VpnChapter]
    requires !vpnOn ==> vpn == []
    requires Titles(trouble) == ["### Common Issues", "### General Debugging"]
    requires Chapters(trouble) == [TroubleshootingChapter]
    ensures Titles(body) == numbered + ["### Common Issues", "### General Debugging"]
    ensures Chapters(body) == [ServiceChapter] + (if vpnOn then [VpnChapter] else []) + [TroubleshootingChapter]
  {
    BodyTitles(body, intro, sections, vpn, trouble);
    BodyChapters(body, intro, sections, vpn, trouble);
  }

  lemma BodyTitles(body: seq<string>, intro: seq<string>, sections: seq<string>, vpn: seq<string>, trouble: seq<string>)
    requires body == intro + sections + vpn + trouble
    ensures Titles(body) == Titles(intro) + Titles(sections) + Titles(vpn) + Titles(trouble)
  {
    GuideOutlineParts(intro, sections, vpn, trouble, "### ");
  }

  lemma BodyChapters(body: seq<string>, intro: seq<string>, sections: seq<string>, vpn: seq<string>, trouble: seq<string>)
    requires body == intro + sections + vpn + trouble
    ensures Chapters(body) == Chapters(intro) + Chapters(sections) + Chapters(vpn) + Chapters(trouble)
  {
    GuideOutlineParts(intro, sections, vpn, trouble, "## ");
  }

  lemma GuideOutlineParts(intro: seq<string>, sections: seq<string>, vpn: seq<string>, trouble: seq<string>, marker: string)
    ensures Headings(intro + sections + vpn + trouble, marker) ==
      Headings(intro, marker) + Headings(sections, marker) + Headings(vpn, marker) + Headings(trouble, marker)
  {
    HeadingsAppend(intro, sections, marker);
    HeadingsAppend(intro + sections, vpn, marker);
    HeadingsAppend(intro + sections + vpn, trouble, marker);
  }
}
