/** The hub protocol layer: the XML parsers, the light-state rule, the
    command bodies, and the hub object whose network side is the log of the
    requests it has sent. */
module Hub {
  import opened Wrappers
  import opened PyText
  import opened Xml
  import opened Dicts

  const COMMAND_ON := "on"
  const COMMAND_OFF := "off"
  const COMMAND_DIM_UP := "dim_up_200"
  const COMMAND_DIM_DOWN := "dim_down_200"
  const COMMAND_TOGGLE := "toggle"

  const CHANNEL_DESCRIPTION_ENDPOINT := "/zrap/chdes"
  const CHANNEL_STATES_ENDPOINT := "/zrap/chscan"
  const SEND_COMMAND_ENDPOINT := "/zrap/chctrl"
  const CHANNEL_NOTIFY_ENDPOINT := "/zrap/chnotify"
  const NETWORK_INFO_ENDPOINT := "/zrap/net"
  const DEVICE_INFO_ENDPOINT := "/zrap/id"

  /** DeviceCategory. */
  const UNKNOWN := -1
  const LIGHT := 1
  const BLIND := 5

  /** One entry of the channel-description dict. */
  datatype Channel = Channel(id: string, name: string, group: string, category: int)

  /** The dict `parse_device_info` returns: its four keys as four fields. */
  datatype DeviceInfo = DeviceInfo(
    hardwareVersion: Option<string>,
    serialNumber: Option<string>,
    deviceType: Option<string>,
    softwareVersion: Option<string>)

  /** The dict `parse_network_info` returns. */
  datatype NetworkInfo = NetworkInfo(mac: Option<string>)

  /** The setup-form key under which a channel's display name is stored. */
  function ChannelField(id: string): string {
    "Channel " + id + " Name"
  }

  // ---------------------------------------------------------------------------
  // parse_channel_descriptions

  /** The name of channel element `c`: the configured override for its key if
      there is one (a non-empty `channel_names` holding the key), else the
      stripped `<name>` text, else "Unnamed". */
  function ChannelName(c: Element, names: Option<map<string, string>>): (r: string)
    ensures var key := ChannelField(RemoveCh(c.tag));
      && (names.Some? && key in names.value ==> r == names.value[key])
      && (!(names.Some? && key in names.value) && (forall k :: 0 <= k < |c.children| ==> c.children[k].tag != "name") ==>
            r == "Unnamed")
  {
    var key := ChannelField(RemoveCh(c.tag));
    if names.Some? && key in names.value then names.value[key] else TextOr(c, "name", "Unnamed")
  }

  /** `int()` of the `<cat>` text, whose default is `str(DeviceCategory.UNKNOWN)`;
      None is the ValueError `int()` raises. */
  function CategoryOf(c: Element): (r: Option<int>)
    ensures (forall k :: 0 <= k < |c.children| ==> c.children[k].tag != "cat") ==> r == Some(UNKNOWN)
  {
    ParseFormatInt(UNKNOWN);
    ParseInt(TextOr(c, "cat", FormatInt(UNKNOWN)))
  }

  /** What one child of the root contributes: the ValueError of a category
      that is not an integer, nothing for an unknown (disconnected) channel,
      or a channel. */
  function ChannelEntry(c: Element, names: Option<map<string, string>>): (r: Result<Option<Channel>, PyError>)
    ensures r.Err? <==> CategoryOf(c).None?
    ensures r.Err? ==> r.error == ValueError
    ensures r == Ok(None) <==> CategoryOf(c) == Some(UNKNOWN)
  {
    match CategoryOf(c)
    case None => Err(ValueError)
    case Some(cat) =>
      if cat == UNKNOWN then Ok(None)
      else Ok(Some(Channel(RemoveCh(c.tag), ChannelName(c, names), TextOr(c, "group", "Ungrouped"), cat)))
  }

  /** Child `c` ends up in the result. */
  predicate Kept(c: Element) {
    CategoryOf(c).Some? && CategoryOf(c).value != UNKNOWN
  }

  /** Child `i` is kept and no later kept child has the same tag. */
  ghost predicate LastKept(cs: seq<Element>, i: int) {
    0 <= i < |cs| && Kept(cs[i]) && forall j :: i < j < |cs| && cs[j].tag == cs[i].tag ==> !Kept(cs[j])
  }

  /** One visit of the loop, reduced to what the dict sees of it: the child's
      tag and what the child contributes. */
  datatype Visit = Visit(tag: string, entry: Result<Option<Channel>, PyError>)

  function VisitOf(c: Element, names: Option<map<string, string>>): Visit {
    Visit(c.tag, ChannelEntry(c, names))
  }

  function VisitsOf(cs: seq<Element>, names: Option<map<string, string>>): (vs: seq<Visit>)
    ensures |vs| == |cs| && forall i :: 0 <= i < |cs| ==> vs[i] == VisitOf(cs[i], names)
  {
    seq(|cs|, i requires 0 <= i < |cs| => VisitOf(cs[i], names))
  }

  predicate Adds(v: Visit) {
    v.entry.Ok? && v.entry.value.Some?
  }

  /** Visit `i` adds a channel and no later visit adds one under the same tag. */
  ghost predicate LastAdding(vs: seq<Visit>, i: int) {
    0 <= i < |vs| && Adds(vs[i]) && forall j :: i < j < |vs| && vs[j].tag == vs[i].tag ==> !Adds(vs[j])
  }

  /** The `channels` dict after the visits `vs`, or the first exception. */
  function Collect(vs: seq<Visit>): Result<Dict<Channel>, PyError> {
    if vs == [] then Ok(Empty())
    else
      match Collect(vs[..|vs| - 1])
      case Err(e) => Err(e)
      case Ok(d) =>
        match vs[|vs| - 1].entry
        case Err(e) => Err(e)
        case Ok(None) => Ok(d)
        case Ok(Some(ch)) => Ok(Assign(d, vs[|vs| - 1].tag, ch))
  }

  /** The `channels` dict after the loop has visited the children `cs`. */
  function DescriptionsOf(cs: seq<Element>, names: Option<map<string, string>>): Result<Dict<Channel>, PyError> {
    Collect(VisitsOf(cs, names))
  }

  /** `parse_channel_descriptions(xml_data, channel_names)`: ParseError is
      caught and gives the empty dict; ValueError escapes. */
  function ChannelDescriptions(doc: XmlDoc, names: Option<map<string, string>>): (r: Result<Dict<Channel>, PyError>)
    ensures doc.Malformed? ==> r == Ok(Empty())
    ensures r.Err? ==> r.error == ValueError
    ensures r.Ok? ==> Valid(r.value) && forall k :: k in r.value.entries ==> r.value.entries[k].category != UNKNOWN
  {
    match doc
    case Malformed => Ok(Empty())
    case Parsed(root) =>
      DescriptionsErrorIff(root.children, names);
      if DescriptionsOf(root.children, names).Ok? then
        DescriptionsKnown(root.children, names);
        DescriptionsOf(root.children, names)
      else
        DescriptionsOf(root.children, names)
  }

  /** Some visit raises `e`. */
  ghost predicate RaisesWith(vs: seq<Visit>, e: PyError) {
    exists i :: 0 <= i < |vs| && vs[i].entry == Err(e)
  }

  /** Some visit raises. */
  ghost predicate SomeRaises(vs: seq<Visit>) {
    exists i :: 0 <= i < |vs| && vs[i].entry.Err?
  }

  /** The loop fails exactly when some visit raises, with that visit's exception. */
  lemma {:induction false} CollectErrorIff(vs: seq<Visit>)
    ensures Collect(vs).Err? <==> SomeRaises(vs)
    ensures Collect(vs).Err? ==> RaisesWith(vs, Collect(vs).error)
  {
    if vs != [] {
      var p := vs[..|vs| - 1];
      CollectErrorIff(p);
      if SomeRaises(p) {
        var i :| 0 <= i < |p| && p[i].entry.Err?;
        assert vs[i] == p[i];
      }
      if Collect(p).Err? {
        var i :| 0 <= i < |p| && p[i].entry == Err(Collect(p).error);
        assert vs[i] == p[i];
      }
      if SomeRaises(vs) {
        var i :| 0 <= i < |vs| && vs[i].entry.Err?;
        if i < |p| { assert p[i] == vs[i]; assert SomeRaises(p); }
      }
      if Collect(vs).Err? && !Collect(p).Err? {
        assert vs[|vs| - 1].entry == Err(Collect(vs).error);
      }
    }
  }

  /** Some visit adds a channel under `k`. */
  ghost predicate AddedUnder(vs: seq<Visit>, k: string) {
    exists i :: 0 <= i < |vs| && vs[i].tag == k && Adds(vs[i])
  }

  /** Some visit adds the channel `ch` under `k`. */
  ghost predicate Supplies(vs: seq<Visit>, k: string, ch: Channel) {
    exists i :: 0 <= i < |vs| && vs[i].tag == k && vs[i].entry == Ok(Some(ch))
  }

  /** A successful loop builds a well-formed dict. */
  lemma {:induction false} CollectValid(vs: seq<Visit>)
    requires Collect(vs).Ok?
    ensures Valid(Collect(vs).value)
  {
    if vs != [] {
      CollectValid(vs[..|vs| - 1]);
    }
  }

  /** Its keys are exactly the tags under which some visit adds a channel. */
  lemma {:induction false} CollectKeys(vs: seq<Visit>)
    requires Collect(vs).Ok?
    ensures forall k :: k in Collect(vs).value.entries <==> AddedUnder(vs, k)
  {
    if vs != [] {
      var p := vs[..|vs| - 1];
      CollectKeys(p);
      forall k ensures k in Collect(vs).value.entries <==> AddedUnder(vs, k) {
        if AddedUnder(p, k) {
          var i :| 0 <= i < |p| && p[i].tag == k && Adds(p[i]);
          assert vs[i] == p[i];
        }
        if AddedUnder(vs, k) {
          var i :| 0 <= i < |vs| && vs[i].tag == k && Adds(vs[i]);
          if i < |p| { assert p[i] == vs[i]; assert AddedUnder(p, k); }
        }
      }
    }
  }

  /** Each of its values is a channel some visit added under that key. */
  lemma {:induction false} CollectValues(vs: seq<Visit>)
    requires Collect(vs).Ok?
    ensures forall k :: k in Collect(vs).value.entries ==> Supplies(vs, k, Collect(vs).value.entries[k])
  {
    if vs != [] {
      var p := vs[..|vs| - 1];
      var last := vs[|vs| - 1];
      CollectValues(p);
      var d := Collect(p).value;
      var d' := Collect(vs).value;
      forall k | k in d'.entries ensures Supplies(vs, k, d'.entries[k]) {
        if Adds(last) && k == last.tag {
          assert vs[|vs| - 1].tag == k;
        } else {
          assert Supplies(p, k, d.entries[k]);
          var i :| 0 <= i < |p| && p[i].tag == k && p[i].entry == Ok(Some(d.entries[k]));
          assert vs[i] == p[i];
        }
      }
    }
  }

  /** When several visits add under one tag, the last of them wins. */
  lemma {:induction false} CollectLastWins(vs: seq<Visit>, i: int)
    requires Collect(vs).Ok?
    requires LastAdding(vs, i)
    ensures vs[i].tag in Collect(vs).value.entries
    ensures vs[i].entry == Ok(Some(Collect(vs).value.entries[vs[i].tag]))
  {
    var p := vs[..|vs| - 1];
    if i < |vs| - 1 {
      assert p[i] == vs[i];
      assert LastAdding(p, i) by {
        forall j | i < j < |p| && p[j].tag == p[i].tag ensures !Adds(p[j]) {
          assert p[j] == vs[j];
        }
      }
      CollectLastWins(p, i);
    }
  }

  /** A child adds a channel exactly when it is kept, and then the channel
      carries the child's id, name, group and category. */
  lemma ChannelEntryFacts(c: Element, names: Option<map<string, string>>)
    ensures Adds(VisitOf(c, names)) <==> Kept(c)
    ensures Kept(c) ==>
              ChannelEntry(c, names).value.value == Channel(RemoveCh(c.tag), ChannelName(c, names), TextOr(c, "group", "Ungrouped"), CategoryOf(c).value)
  {
  }

  /** The parse raises exactly when some child's category is not an integer,
      and then the error is ValueError. */
  lemma DescriptionsErrorIff(cs: seq<Element>, names: Option<map<string, string>>)
    ensures DescriptionsOf(cs, names).Err? <==> exists i :: 0 <= i < |cs| && CategoryOf(cs[i]).None?
    ensures DescriptionsOf(cs, names).Err? ==> DescriptionsOf(cs, names).error == ValueError
  {
    var vs := VisitsOf(cs, names);
    CollectErrorIff(vs);
    forall i | 0 <= i < |cs| ensures vs[i].entry.Err? <==> CategoryOf(cs[i]).None? {
      ChannelEntryFacts(cs[i], names);
    }
    if SomeRaises(vs) {
      var i :| 0 <= i < |vs| && vs[i].entry.Err?;
      assert CategoryOf(cs[i]).None?;
    }
    if exists i :: 0 <= i < |cs| && CategoryOf(cs[i]).None? {
      var i :| 0 <= i < |cs| && CategoryOf(cs[i]).None?;
      assert vs[i].entry.Err?;
    }
    if Collect(vs).Err? {
      var i :| 0 <= i < |vs| && vs[i].entry == Err(Collect(vs).error);
      ChannelEntryFacts(cs[i], names);
    }
  }

  /** The keys of a successful parse are exactly the tags of the children
      with a known category; when several share a tag, the last one wins. */
  lemma DescriptionsKeys(cs: seq<Element>, names: Option<map<string, string>>, i: int)
    requires DescriptionsOf(cs, names).Ok?
    requires 0 <= i < |cs|
    ensures Kept(cs[i]) ==> cs[i].tag in DescriptionsOf(cs, names).value.entries
    ensures forall k :: k in DescriptionsOf(cs, names).value.entries ==>
              exists j :: 0 <= j < |cs| && cs[j].tag == k && Kept(cs[j])
    ensures LastKept(cs, i) ==>
      DescriptionsOf(cs, names).value.entries[cs[i].tag] == ChannelEntry(cs[i], names).value.value
  {
    var vs := VisitsOf(cs, names);
    CollectKeys(vs);
    ChannelEntryFacts(cs[i], names);
    if Kept(cs[i]) {
      assert vs[i].tag == cs[i].tag && Adds(vs[i]);
    }
    forall k | k in Collect(vs).value.entries ensures exists j :: 0 <= j < |cs| && cs[j].tag == k && Kept(cs[j]) {
      assert AddedUnder(vs, k);
      var j :| 0 <= j < |vs| && vs[j].tag == k && Adds(vs[j]);
      ChannelEntryFacts(cs[j], names);
    }
    if LastKept(cs, i) {
      assert LastAdding(vs, i) by {
        forall j | i < j < |vs| && vs[j].tag == vs[i].tag ensures !Adds(vs[j]) {
          ChannelEntryFacts(cs[j], names);
        }
      }
      CollectLastWins(vs, i);
    }
  }

  method ParseChannelDescriptions(doc: XmlDoc, names: Option<map<string, string>>)
    returns (r: Result<Dict<Channel>, PyError>)
    ensures r == ChannelDescriptions(doc, names)
    ensures doc.Malformed? ==> r == Ok(Empty())
    ensures r.Ok? ==> Valid(r.value)
    ensures r.Ok? ==> forall k :: k in r.value.entries ==> r.value.entries[k].category != UNKNOWN
  {
    var channels: Dict<Channel> := Empty();
    match doc {
      case Malformed =>
        return Ok(channels);
      case Parsed(root) =>
        var rawChannels := root.children;
        ghost var vs := VisitsOf(rawChannels, names);
        var i := 0;
        while i < |rawChannels|
          invariant 0 <= i <= |rawChannels|
          invariant Collect(vs[..i]) == Ok(channels)
        {
          var channel := rawChannels[i];
          var entry := ChannelEntry(channel, names);
          VisitStep(vs, i, channel, names);
          match entry {
            case Err(e) =>
              CollectErrorPersists(vs, i + 1);
              return Err(e);
            case Ok(None) =>
            case Ok(Some(ch)) =>
              channels := Assign(channels, channel.tag, ch);
          }
          i := i + 1;
        }
        assert vs[..i] == vs;
        DescriptionsKnown(rawChannels, names);
        r := Ok(channels);
    }
  }

  /** A successful parse gives a well-formed dict with no channel of category UNKNOWN. */
  lemma DescriptionsKnown(cs: seq<Element>, names: Option<map<string, string>>)
    requires DescriptionsOf(cs, names).Ok?
    ensures Valid(DescriptionsOf(cs, names).value)
    ensures forall k :: k in DescriptionsOf(cs, names).value.entries ==>
              DescriptionsOf(cs, names).value.entries[k].category != UNKNOWN
  {
    var vs := VisitsOf(cs, names);
    var d := Collect(vs).value;
    CollectValid(vs);
    CollectValues(vs);
    forall k | k in d.entries ensures d.entries[k].category != UNKNOWN {
      assert Supplies(vs, k, d.entries[k]);
      var j :| 0 <= j < |vs| && vs[j].tag == k && vs[j].entry == Ok(Some(d.entries[k]));
      ChannelEntryFacts(cs[j], names);
    }
  }

  /** The loop's step for child `c`, the `i`-th of the children `vs` visits. */
  lemma VisitStep(vs: seq<Visit>, i: int, c: Element, names: Option<map<string, string>>)
    requires 0 <= i < |vs| && vs[i] == VisitOf(c, names)
    ensures Collect(vs[..i + 1]) ==
      match Collect(vs[..i])
      case Err(e) => Err(e)
      case Ok(d) =>
        match ChannelEntry(c, names)
        case Err(e) => Err(e)
        case Ok(None) => Ok(d)
        case Ok(Some(ch)) => Ok(Assign(d, c.tag, ch))
  {
    CollectSnoc(vs, i);
  }

  /** One more visit of the loop. */
  lemma CollectSnoc(vs: seq<Visit>, i: int)
    requires 0 <= i < |vs|
    ensures Collect(vs[..i + 1]) ==
      match Collect(vs[..i])
      case Err(e) => Err(e)
      case Ok(d) =>
        match vs[i].entry
        case Err(e) => Err(e)
        case Ok(None) => Ok(d)
        case Ok(Some(ch)) => Ok(Assign(d, vs[i].tag, ch))
  {
    assert vs[..i + 1][..i] == vs[..i];
  }

  /** Once the loop has raised, it stays raised with the same exception. */
  lemma {:induction false} CollectErrorPersists(vs: seq<Visit>, n: nat)
    requires n <= |vs|
    requires Collect(vs[..n]).Err?
    ensures Collect(vs) == Collect(vs[..n])
    decreases |vs| - n
  {
    if n < |vs| {
      assert vs[..n + 1][..n] == vs[..n];
      CollectErrorPersists(vs, n + 1);
    } else {
      assert vs[..n] == vs;
    }
  }

  /** What every parsed channel carries: the key it is stored under is its
      element tag, its id is that tag with "ch" removed, its category is known,
      and its name is the configured override when `channel_names` holds
      "Channel {id} Name", otherwise the element's own stripped `<name>` or "Unnamed". */
  lemma ParsedChannel(doc: XmlDoc, names: Option<map<string, string>>, k: string)
    requires ChannelDescriptions(doc, names).Ok?
    requires k in ChannelDescriptions(doc, names).value.entries
    ensures doc.Parsed?
    ensures var ch := ChannelDescriptions(doc, names).value.entries[k];
      && ch.category != UNKNOWN
      && ch.id == RemoveCh(k)
      && (names.Some? && ChannelField(ch.id) in names.value ==> ch.name == names.value[ChannelField(ch.id)])
      && (!(names.Some? && ChannelField(ch.id) in names.value) ==>
            exists i :: 0 <= i < |doc.root.children| && doc.root.children[i].tag == k
              && ch.name == TextOr(doc.root.children[i], "name", "Unnamed")
              && ch.group == TextOr(doc.root.children[i], "group", "Ungrouped"))
    ensures var cs := doc.root.children; var ch := ChannelDescriptions(doc, names).value.entries[k];
      exists i :: 0 <= i < |cs| && cs[i].tag == k && Kept(cs[i])
        && ch == Channel(RemoveCh(k), ChannelName(cs[i], names), TextOr(cs[i], "group", "Ungrouped"), CategoryOf(cs[i]).value)
  {
    var cs := doc.root.children;
    var vs := VisitsOf(cs, names);
    CollectValues(vs);
    assert Supplies(vs, k, Collect(vs).value.entries[k]);
    var i :| 0 <= i < |vs| && vs[i].tag == k && vs[i].entry == Ok(Some(Collect(vs).value.entries[k]));
    ChannelEntryFacts(cs[i], names);
  }

  // ---------------------------------------------------------------------------
  // parse_channel_state, parse_device_info, parse_network_info

  /** `parse_channel_state(channel, channel_states)`: the stripped `<val>` of
      element `ch{channel}`, or None. */
  function ParseChannelState(channel: string, doc: XmlDoc): (r: Option<string>)
    ensures doc.Malformed? ==> r.None?
    ensures doc.Parsed? && Find(doc.root, "ch" + channel).None? ==> r.None?
    ensures doc.Parsed? && Find(doc.root, "ch" + channel).Some? ==>
              r == SafeFindText(Find(doc.root, "ch" + channel), "val", None)
  {
    match doc
    case Malformed => None
    case Parsed(states) => SafeFindText(Find(states, "ch" + channel), "val", None)
  }

  /** `<zrap><ch3><val>128</val></ch3></zrap>` gives "128" for channel 3 and
      nothing for channel 9. */
  lemma ChannelStateExample()
    ensures var doc := Parsed(Element("zrap", None, [Element("ch3", None, [Element("val", Some("128"), [])])]));
      ParseChannelState("3", doc) == Some("128") && ParseChannelState("9", doc) == None
  {
    var val := Element("val", Some("128"), []);
    var ch3 := Element("ch3", None, [val]);
    var root := Element("zrap", None, [ch3]);
    assert "ch" + "3" == "ch3";
    assert "ch" + "9" != "ch3" by { assert ("ch" + "9")[2] == '9'; }
    assert Find(root, "ch3") == Some(ch3) by { assert FirstWithTag(root.children, "ch3", 0); }
    assert Find(root, "ch" + "9") == None;
    assert FirstWithTag(ch3.children, "val", 0);
    StripIsCore("128", 0, 3);
    assert "128"[0..3] == "128";
    assert SafeFindText(Some(ch3), "val", None) == Some("128");
  }

  /** `parse_device_info(device_info)`: None exactly on a parse error; else
      `<hw>`, `<sn>`, `<type>` and `<sw>`, each None when absent or empty. */
  function ParseDeviceInfo(doc: XmlDoc): (r: Option<DeviceInfo>)
    ensures r.None? <==> doc.Malformed?
    ensures r.Some? ==> r.value == DeviceInfo(
              SafeFindText(Some(doc.root), "hw", None), SafeFindText(Some(doc.root), "sn", None),
              SafeFindText(Some(doc.root), "type", None), SafeFindText(Some(doc.root), "sw", None))
  {
    match doc
    case Malformed => None
    case Parsed(info) =>
      Some(DeviceInfo(
        SafeFindText(Some(info), "hw", None),
        SafeFindText(Some(info), "sn", None),
        SafeFindText(Some(info), "type", None),
        SafeFindText(Some(info), "sw", None)))
  }

  /** `parse_network_info(network_info)`: None exactly on a parse error; else
      the `<mac>` text, None when absent or empty. */
  function ParseNetworkInfo(doc: XmlDoc): (r: Option<NetworkInfo>)
    ensures r.None? <==> doc.Malformed?
    ensures r.Some? ==> r.value.mac == SafeFindText(Some(doc.root), "mac", None)
  {
    match doc
    case Malformed => None
    case Parsed(network) => Some(NetworkInfo(SafeFindText(Some(network), "mac", None)))
  }

  // ---------------------------------------------------------------------------
  // get_light_state

  /** The light-state rule: `int(state) > 0`, and False when there is no
      state or it is not an integer. */
  function LightOn(state: Option<string>): bool {
    match state
    case None => false
    case Some(s) =>
      match ParseInt(s)
      case None => false
      case Some(n) => n > 0
  }

  /** A hub value that is the decimal form of `n` means "on" exactly when n > 0. */
  lemma LightOnFormatted(n: int)
    requires |FormatNat(if n < 0 then -n else n)| <= MAX_STR_DIGITS
    ensures LightOn(Some(FormatInt(n))) == (n > 0)
  {
    ParseFormatInt(n);
  }

  /** A value with more digits than `int()` converts reads as "off". */
  lemma LightOffBeyondDigitLimit(s: string)
    requires IsDecimalLiteral(s) && DigitCount(s) > MAX_STR_DIGITS
    ensures !LightOn(Some(s))
  {
    ParseIntTooManyDigits(s);
  }

  /** `get_light_state` as written: when the fetch failed, `fromstring(None)`
      raises TypeError, which `except ParseError` does not catch. */
  function LightStateAsWritten(channel: string, channelStates: Option<XmlDoc>): (r: Result<bool, PyError>)
    ensures r.Err? <==> channelStates.None?
    ensures r.Err? ==> r.error == TypeError
  {
    match channelStates
    case None => Err(TypeError)
    case Some(doc) => Ok(LightOn(ParseChannelState(channel, doc)))
  }

  /** The discrepancy: a failed fetch makes `get_light_state` raise instead of
      reporting the light off. */
  lemma LightStateAsWrittenRaises(channel: string)
    ensures LightStateAsWritten(channel, None) == Err(TypeError)
  {
  }

  /** `get_light_state` as intended: a failed fetch reports the light off. */
  function LightState(channel: string, channelStates: Option<XmlDoc>): (r: bool)
    ensures channelStates.None? ==> !r
    ensures channelStates.Some? ==> LightStateAsWritten(channel, channelStates) == Ok(r)
  {
    channelStates.Some? && LightOn(ParseChannelState(channel, channelStates.value))
  }

  // ---------------------------------------------------------------------------
  // Requests

  /** `request(method, url, **kwargs)` as the session receives it. */
  datatype Request = Request(
    httpMethod: string,
    endpoint: string,
    headers: map<string, string>,
    form: map<string, string>,
    timeout: Option<nat>)

  /** How one request ended: an HTTP status and the body parsed as XML, or a
      client error, a timeout or any other exception. */
  datatype HttpOutcome = Response(status: int, body: XmlDoc) | Fault

  /** `__make_request`'s result: the body on status 200 or 302, None otherwise. */
  function Transport(outcome: HttpOutcome): (r: Option<XmlDoc>)
    ensures r.Some? <==> outcome.Response? && (outcome.status == 200 || outcome.status == 302)
    ensures r.Some? ==> r.value == outcome.body
  {
    if outcome.Response? && outcome.status in {200, 302} then Some(outcome.body) else None
  }

  const FORM_HEADERS := map["Content-Type" := "application/x-www-form-urlencoded"]

  /** The form body `__send_command` posts. */
  function EncodeCommand(channel: string, command: string): (body: map<string, string>)
    ensures body.Keys == {"cmd" + channel}
    ensures body["cmd" + channel] == command
  {
    map["cmd" + channel := command]
  }

  /** The body names its channel and command unambiguously. */
  lemma EncodeCommandInjective(c1: string, t1: string, c2: string, t2: string)
    requires EncodeCommand(c1, t1) == EncodeCommand(c2, t2)
    ensures c1 == c2 && t1 == t2
  {
    assert "cmd" + c1 in EncodeCommand(c2, t2);
    assert ("cmd" + c1)[3..] == c1 && ("cmd" + c2)[3..] == c2;
  }

  function CommandRequest(channel: string, command: string): Request {
    Request("POST", SEND_COMMAND_ENDPOINT, FORM_HEADERS, EncodeCommand(channel, command), None)
  }

  function GetRequest(endpoint: string, timeout: Option<nat>): Request {
    Request("GET", endpoint, map[], map[], timeout)
  }

  /** `blind_stop`'s command: the inverse of the previous direction, "off"
      after "open" and "on" after anything else. */
  function StopCommand(previousAction: string): (command: string)
    ensures command == COMMAND_OFF <==> previousAction == "open"
    ensures command == COMMAND_ON <==> previousAction != "open"
  {
    if previousAction == "open" then COMMAND_OFF else COMMAND_ON
  }

  /** FellerZeptrionHub. Its network side is `log`, the requests it has sent
      in order; what the hub answers is given to each call as an outcome. */
  class ZeptrionHub {
    const host: string
    var log: seq<Request>

    constructor (host: string)
      ensures this.host == host && log == []
    {
      this.host := host;
      log := [];
    }

    /** The URL a request to `endpoint` goes to. */
    function Url(endpoint: string): string {
      "http://" + host + endpoint
    }

    method MakeRequest(httpMethod: string, endpoint: string, headers: map<string, string>,
                       form: map<string, string>, timeout: Option<nat>, outcome: HttpOutcome)
      returns (r: Option<XmlDoc>)
      modifies this
      ensures log == old(log) + [Request(httpMethod, endpoint, headers, form, timeout)]
      ensures r == Transport(outcome)
    {
      log := log + [Request(httpMethod, endpoint, headers, form, timeout)];
      match outcome {
        case Response(status, body) =>
          if status == 200 || status == 302 {
            return Some(body);
          }
          return None;
        case Fault =>
          return None;
      }
    }

    /** `__send_command`: the response is discarded and `__make_request`
        never raises, so a command is exactly the request it appends. */
    method SendCommand(channel: string, command: string)
      modifies this
      ensures log == old(log) + [CommandRequest(channel, command)]
    {
      log := log + [CommandRequest(channel, command)];
    }

    /** `__await_update`: a notify poll with a one-second timeout, result unused. */
    method AwaitUpdate()
      modifies this
      ensures log == old(log) + [GetRequest(CHANNEL_NOTIFY_ENDPOINT, Some(1))]
    {
      log := log + [GetRequest(CHANNEL_NOTIFY_ENDPOINT, Some(1))];
    }

    method GetChannelDescriptions(names: Option<map<string, string>>, outcome: HttpOutcome)
      returns (r: Result<Option<Dict<Channel>>, PyError>)
      modifies this
      ensures log == old(log) + [GetRequest(CHANNEL_DESCRIPTION_ENDPOINT, None)]
      ensures Transport(outcome).None? ==> r == Ok(None)
      ensures Transport(outcome).Some? ==>
        match ChannelDescriptions(Transport(outcome).value, names)
        case Ok(d) => r == Ok(Some(d))
        case Err(e) => r == Err(e)
    {
      var data := MakeRequest("GET", CHANNEL_DESCRIPTION_ENDPOINT, map[], map[], None, outcome);
      if data.None? {
        return Ok(None);
      }
      var channels := ParseChannelDescriptions(data.value, names);
      match channels {
        case Ok(d) => r := Ok(Some(d));
        case Err(e) => r := Err(e);
      }
    }

    method GetNetworkInfo(outcome: HttpOutcome) returns (r: Option<NetworkInfo>)
      modifies this
      ensures log == old(log) + [GetRequest(NETWORK_INFO_ENDPOINT, None)]
      ensures Transport(outcome).None? ==> r.None?
      ensures Transport(outcome).Some? ==> r == ParseNetworkInfo(Transport(outcome).value)
    {
      var data := MakeRequest("GET", NETWORK_INFO_ENDPOINT, map[], map[], None, outcome);
      if data.None? {
        return None;
      }
      r := ParseNetworkInfo(data.value);
    }

    method GetDeviceInfo(outcome: HttpOutcome) returns (r: Option<DeviceInfo>)
      modifies this
      ensures log == old(log) + [GetRequest(DEVICE_INFO_ENDPOINT, None)]
      ensures Transport(outcome).None? ==> r.None?
      ensures Transport(outcome).Some? ==> r == ParseDeviceInfo(Transport(outcome).value)
    {
      var data := MakeRequest("GET", DEVICE_INFO_ENDPOINT, map[], map[], None, outcome);
      if data.None? {
        return None;
      }
      r := ParseDeviceInfo(data.value);
    }

    /** The notify coroutine is created first but only started after the
        command, so the POST goes out before the notify poll. */
    method TurnLightOn(channel: string)
      modifies this
      ensures log == old(log) + [CommandRequest(channel, COMMAND_ON), GetRequest(CHANNEL_NOTIFY_ENDPOINT, Some(1))]
    {
      SendCommand(channel, COMMAND_ON);
      AwaitUpdate();
    }

    method TurnLightOff(channel: string)
      modifies this
      ensures log == old(log) + [CommandRequest(channel, COMMAND_OFF), GetRequest(CHANNEL_NOTIFY_ENDPOINT, Some(1))]
    {
      SendCommand(channel, COMMAND_OFF);
      AwaitUpdate();
    }

    /** `get_light_state`, with the failed fetch reporting "off" (see LightStateAsWritten). */
    method GetLightState(channel: string, outcome: HttpOutcome) returns (r: bool)
      modifies this
      ensures log == old(log) + [GetRequest(CHANNEL_STATES_ENDPOINT, None)]
      ensures r == LightState(channel, Transport(outcome))
    {
      var channelStates := MakeRequest("GET", CHANNEL_STATES_ENDPOINT, map[], map[], None, outcome);
      if channelStates.None? {
        return false;
      }
      var state := ParseChannelState(channel, channelStates.value);
      r := LightOn(state);
    }

    method BlindOpen(channel: string)
      modifies this
      ensures log == old(log) + [CommandRequest(channel, COMMAND_ON)]
    {
      SendCommand(channel, COMMAND_ON);
    }

    method BlindClose(channel: string)
      modifies this
      ensures log == old(log) + [CommandRequest(channel, COMMAND_OFF)]
    {
      SendCommand(channel, COMMAND_OFF);
    }

    method BlindStop(channel: string, previousAction: string)
      modifies this
      ensures log == old(log) + [CommandRequest(channel, StopCommand(previousAction))]
    {
      if previousAction == "open" {
        BlindClose(channel);
      } else {
        BlindOpen(channel);
      }
    }

    method BlindOpenTilt(channel: string)
      modifies this
      ensures log == old(log) + [CommandRequest(channel, COMMAND_DIM_UP)]
    {
      SendCommand(channel, COMMAND_DIM_UP);
    }

    method BlindCloseTilt(channel: string)
      modifies this
      ensures log == old(log) + [CommandRequest(channel, COMMAND_DIM_DOWN)]
    {
      SendCommand(channel, COMMAND_DIM_DOWN);
    }

    /** The toggle sends "on", not the "toggle" token. */
    method BlindToggle(channel: string)
      modifies this
      ensures log == old(log) + [CommandRequest(channel, COMMAND_ON)]
    {
      SendCommand(channel, COMMAND_ON);
    }
  }
}
