/** The setup wizard: the form it builds from the hub's channels and
    identity, and its two steps. Schemas are modelled as the dict from field
    name to default value; voluptuous validation is not modelled. */
module ConfigFlow {
  import opened Wrappers
  import opened PyText
  import opened Dicts
  import opened Hub

  const HUB_NAME := "Hub Name"
  const CONNECT_ERROR := "Could not connect to Feller Zeptrion Hub"
  const NO_CHANNELS_ERROR := "Zeptrion hub has no configured channels"

  /** The default display name of the hub (an f-string renders a missing serial number as "None"). */
  function HubNameDefault(device: DeviceInfo): (r: string)
    ensures device.serialNumber.Some? ==> r == "Feller Zeptrion Zapp " + device.serialNumber.value
    ensures device.serialNumber.None? ==> r == "Feller Zeptrion Zapp None"
  {
    "Feller Zeptrion Zapp " + PyStr(device.serialNumber)
  }

  /** `fields[vol.Required(key, default=d)] = str`. Markers compare equal by
      their name, and a dict that already holds an equal key keeps that key,
      so a second field of the same name keeps the first default. */
  function AddField(fields: Dict<string>, key: string, default: string): (r: Dict<string>)
    ensures Valid(fields) ==> Valid(r)
    ensures key in r.entries
    ensures key in fields.entries ==> r == fields
    ensures key !in fields.entries ==> r.entries == fields.entries[key := default] && r.order == fields.order + [key]
  {
    if key in fields.entries then fields else Assign(fields, key, default)
  }

  /** `channels.values()`, in dict order. */
  function ChannelValues(channels: Dict<Channel>): (vs: seq<Channel>)
    requires Valid(channels)
    ensures |vs| == |channels.order| && forall i :: 0 <= i < |vs| ==> vs[i] == channels.entries[channels.order[i]]
  {
    seq(|channels.order|, i requires 0 <= i < |channels.order| => channels.entries[channels.order[i]])
  }

  /** The fields `get_channel_schema` has built after visiting `chs`. */
  function SchemaOf(device: DeviceInfo, chs: seq<Channel>): Dict<string> {
    if chs == [] then Assign(Empty(), HUB_NAME, HubNameDefault(device))
    else
      var fields := SchemaOf(device, chs[..|chs| - 1]);
      var ch := chs[|chs| - 1];
      if ch.category != UNKNOWN then AddField(fields, ChannelField(ch.id), ch.name) else fields
  }

  /** Channel `i` is the first channel of known category with its id. */
  ghost predicate FirstWithId(chs: seq<Channel>, i: int) {
    0 <= i < |chs| && chs[i].category != UNKNOWN
    && forall j :: 0 <= j < i && chs[j].category != UNKNOWN ==> chs[j].id != chs[i].id
  }

  /** Field names tell channel ids apart, and none of them is "Hub Name". */
  lemma ChannelFieldDistinct(a: string, b: string)
    ensures ChannelField(a) != HUB_NAME
    ensures ChannelField(a) == ChannelField(b) ==> a == b
  {
    assert ChannelField(a)[0] == 'C';
    if ChannelField(a) == ChannelField(b) {
      assert |a| == |b|;
      assert forall k :: 0 <= k < |a| ==> a[k] == ChannelField(a)[8 + k] == ChannelField(b)[8 + k] == b[k];
    }
  }

  /** Some channel of known category has the field name `k`. */
  ghost predicate NamesField(chs: seq<Channel>, k: string) {
    exists i :: 0 <= i < |chs| && chs[i].category != UNKNOWN && k == ChannelField(chs[i].id)
  }

  /** The schema is a well-formed dict whose first field is "Hub Name"
      with the hub's default name. */
  lemma {:induction false} SchemaHead(device: DeviceInfo, chs: seq<Channel>)
    ensures var s := SchemaOf(device, chs);
      && Valid(s)
      && |s.order| > 0 && s.order[0] == HUB_NAME
      && HUB_NAME in s.entries && s.entries[HUB_NAME] == HubNameDefault(device)
  {
    if chs != [] {
      SchemaHead(device, chs[..|chs| - 1]);
      ChannelFieldDistinct(chs[|chs| - 1].id, chs[|chs| - 1].id);
    }
  }

  /** A field is named by the channels `chs` exactly when it is named by all
      but the last, or by the last. */
  lemma NamesFieldSnoc(chs: seq<Channel>, k: string)
    requires chs != []
    ensures NamesField(chs, k) <==>
      NamesField(chs[..|chs| - 1], k) || (chs[|chs| - 1].category != UNKNOWN && k == ChannelField(chs[|chs| - 1].id))
  {
    var p := chs[..|chs| - 1];
    if NamesField(p, k) {
      var i :| 0 <= i < |p| && p[i].category != UNKNOWN && k == ChannelField(p[i].id);
      assert chs[i] == p[i];
    }
    if NamesField(chs, k) {
      var i :| 0 <= i < |chs| && chs[i].category != UNKNOWN && k == ChannelField(chs[i].id);
      if i < |p| { assert p[i] == chs[i]; }
    }
  }

  /** The schema's fields are "Hub Name" and one field per channel of known category. */
  lemma {:induction false} SchemaKeys(device: DeviceInfo, chs: seq<Channel>)
    ensures forall k :: k in SchemaOf(device, chs).entries <==> k == HUB_NAME || NamesField(chs, k)
  {
    if chs != [] {
      SchemaKeys(device, chs[..|chs| - 1]);
      forall k ensures k in SchemaOf(device, chs).entries <==> k == HUB_NAME || NamesField(chs, k) {
        NamesFieldSnoc(chs, k);
      }
    }
  }

  /** A channel field's default is the name of the first channel of known
      category with that id. */
  lemma {:induction false} SchemaDefaults(device: DeviceInfo, chs: seq<Channel>)
    ensures forall i :: FirstWithId(chs, i) ==>
      ChannelField(chs[i].id) in SchemaOf(device, chs).entries
      && SchemaOf(device, chs).entries[ChannelField(chs[i].id)] == chs[i].name
  {
    if chs != [] {
      var p := chs[..|chs| - 1];
      var ch := chs[|chs| - 1];
      SchemaDefaults(device, p);
      SchemaKeys(device, p);
      var s := SchemaOf(device, p);
      var s' := SchemaOf(device, chs);
      forall i | FirstWithId(chs, i)
        ensures ChannelField(chs[i].id) in s'.entries && s'.entries[ChannelField(chs[i].id)] == chs[i].name
      {
        if i < |p| {
          assert p[i] == chs[i];
          assert FirstWithId(p, i) by {
            forall j | 0 <= j < i && p[j].category != UNKNOWN ensures p[j].id != p[i].id {
              assert p[j] == chs[j];
            }
          }
        } else {
          ChannelFieldDistinct(ch.id, ch.id);
          if ChannelField(ch.id) in s.entries {
            var j :| 0 <= j < |p| && p[j].category != UNKNOWN && ChannelField(ch.id) == ChannelField(p[j].id);
            assert p[j] == chs[j];
            ChannelFieldDistinct(p[j].id, ch.id);
            assert false;
          }
        }
      }
    }
  }

  /** With channel ids that differ, every channel of known category gets a
      field whose default is exactly its own name. */
  lemma SchemaDefaultsAreNames(device: DeviceInfo, chs: seq<Channel>, i: int)
    requires 0 <= i < |chs| && chs[i].category != UNKNOWN
    requires forall a, b :: 0 <= a < b < |chs| && chs[a].category != UNKNOWN && chs[b].category != UNKNOWN ==> chs[a].id != chs[b].id
    ensures ChannelField(chs[i].id) in SchemaOf(device, chs).entries
    ensures SchemaOf(device, chs).entries[ChannelField(chs[i].id)] == chs[i].name
  {
    SchemaDefaults(device, chs);
    assert FirstWithId(chs, i);
  }

  /** `get_channel_schema`. The "no fields" answer None cannot happen, since
      "Hub Name" is always there. */
  method ChannelSchema(channels: Dict<Channel>, device: DeviceInfo) returns (schema: Option<Dict<string>>)
    requires Valid(channels)
    ensures schema.Some?
    ensures schema == Some(SchemaOf(device, ChannelValues(channels)))
  {
    var fields := Assign(Empty(), HUB_NAME, HubNameDefault(device));
    ghost var chs := ChannelValues(channels);
    var n := 0;
    while n < |channels.order|
      invariant 0 <= n <= |channels.order|
      invariant fields == SchemaOf(device, chs[..n])
    {
      assert chs[..n + 1][..n] == chs[..n];
      var chInfo := channels.entries[channels.order[n]];
      assert chInfo == chs[n];
      if chInfo.category != UNKNOWN {
        var key := ChannelField(chInfo.id);
        if key !in fields.entries {
          fields := Assign(fields, key, chInfo.name);
        }
      }
      n := n + 1;
    }
    assert chs[..n] == chs;
    SchemaHead(device, chs);
    if |fields.order| == 0 {
      return None;
    }
    schema := Some(fields);
  }

  /** What a form shows: the host field, or the channel fields with their defaults. */
  datatype FormSchema = HostSchema | ChannelsSchema(fields: Dict<string>)

  /** What a step of the flow returns to Home Assistant, or the exception it raises. */
  datatype FlowResult =
    | ShowForm(stepId: string, schema: FormSchema, errors: map<string, string>)
    | CreateEntry(title: string, data: Dict<string>)
    | Abort(reason: string)
    | Raised(error: PyError)

  /** What `get_channel_descriptions()` returns for the hub's answer. */
  function FetchedChannels(outcome: HttpOutcome): Result<Option<Dict<Channel>>, PyError> {
    match Transport(outcome)
    case None => Ok(None)
    case Some(doc) =>
      match ChannelDescriptions(doc, None)
      case Ok(d) => Ok(Some(d))
      case Err(e) => Err(e)
  }

  /** What `get_device_info()` returns for the hub's answer. */
  function FetchedDevice(outcome: HttpOutcome): Option<DeviceInfo> {
    match Transport(outcome)
    case None => None
    case Some(doc) => ParseDeviceInfo(doc)
  }

  /** MyHubConfigFlow. */
  class HubConfigFlow {
    var deviceInfo: Option<DeviceInfo>
    var channels: Option<Dict<Channel>>
    var data: Dict<string>

    /** The channels and the device info are stored together, and the host
        only once both are. */
    ghost predicate Valid()
      reads this
    {
      && (channels.Some? <==> deviceInfo.Some?)
      && (channels.Some? ==> Dicts.Valid(channels.value))
      && Dicts.Valid(data)
      && (forall k :: k in data.entries ==> k == "host")
      && ("host" in data.entries ==> channels.Some?)
    }

    constructor ()
      ensures Valid() && deviceInfo.None? && channels.None? && data == Empty()
    {
      deviceInfo := None;
      channels := None;
      data := Empty();
    }

    /** `async_step_user`. The hub's answers to the channel-description and
        the identity requests are `descriptions` and `identity`. */
    method StepUser(userInput: Option<string>, descriptions: HttpOutcome, identity: HttpOutcome)
      returns (result: FlowResult)
      requires Valid()
      modifies this
      ensures Valid()
      ensures userInput.None? ==>
        result == ShowForm("user", HostSchema, map[]) && unchanged(this)
      ensures userInput.Some? && FetchedChannels(descriptions).Err? ==>
        result == Raised(FetchedChannels(descriptions).error) && unchanged(this)
      ensures userInput.Some? && FetchedChannels(descriptions).Ok?
              && (FetchedChannels(descriptions).value.None? || FetchedDevice(identity).None?) ==>
        result == ShowForm("user", HostSchema, map["host" := CONNECT_ERROR]) && unchanged(this)
      ensures userInput.Some? && FetchedChannels(descriptions).Ok?
              && FetchedChannels(descriptions).value.Some? && FetchedDevice(identity).Some? ==>
        && channels == FetchedChannels(descriptions).value
        && deviceInfo == FetchedDevice(identity)
        && data == Assign(old(data), "host", userInput.value)
        && result == ShowForm("channels",
             ChannelsSchema(SchemaOf(deviceInfo.value, ChannelValues(channels.value))), map[])
    {
      var errors: map<string, string> := map[];
      if userInput.Some? {
        var hub := new ZeptrionHub(userInput.value);
        var fetched := hub.GetChannelDescriptions(None, descriptions);
        if fetched.Err? {
          return Raised(fetched.error);
        }
        var deviceInfo' := hub.GetDeviceInfo(identity);
        if fetched.value.None? || deviceInfo'.None? {
          errors := map["host" := CONNECT_ERROR];
        } else {
          ParsedChannelsValid(descriptions, fetched.value.value);
          channels := fetched.value;
          deviceInfo := deviceInfo';
          var channelSchema := ChannelSchema(channels.value, deviceInfo.value);
          if channelSchema.None? {
            errors := map["host" := NO_CHANNELS_ERROR];
          } else {
            assert data == old(data);
            data := Assign(data, "host", userInput.value);
            result := StepChannels(None);
            return;
          }
        }
      }
      result := ShowForm("user", HostSchema, errors);
    }

    /** A parsed channel dict is well formed. */
    static lemma ParsedChannelsValid(outcome: HttpOutcome, d: Dict<Channel>)
      requires FetchedChannels(outcome) == Ok(Some(d))
      ensures Dicts.Valid(d)
    {
      var doc := Transport(outcome).value;
      if doc.Parsed? {
        CollectValid(VisitsOf(doc.root.children, None));
      }
    }

    /** `async_step_channels`. With the user's answers it creates the entry,
        titled by the "Hub Name" answer, whose data is the stored host merged
        with the answers; without them it shows the channel form. */
    method StepChannels(userInput: Option<Dict<string>>) returns (result: FlowResult)
      requires Valid()
      requires userInput.Some? ==> Dicts.Valid(userInput.value)
      ensures userInput.Some? && HUB_NAME in userInput.value.entries ==>
        && result.CreateEntry?
        && result.title == userInput.value.entries[HUB_NAME]
        && Dicts.Valid(result.data)
        && result.data.entries == data.entries + userInput.value.entries
      ensures userInput.Some? && HUB_NAME !in userInput.value.entries ==> result == Raised(KeyError)
      ensures userInput.None? && deviceInfo.None? ==> result == Raised(TypeError)
      ensures userInput.None? && deviceInfo.Some? ==>
        result == ShowForm("channels", ChannelsSchema(SchemaOf(deviceInfo.value, ChannelValues(channels.value))), map[])
    {
      var errors: map<string, string> := map[];
      if userInput.Some? {
        var entryData := Merge(data, userInput.value);
        MergeSpec(data, userInput.value);
        if HUB_NAME !in userInput.value.entries {
          return Raised(KeyError);
        }
        return CreateEntry(userInput.value.entries[HUB_NAME], entryData);
      }
      if deviceInfo.None? {
        return Raised(TypeError);
      }
      var channelSchema := ChannelSchema(channels.value, deviceInfo.value);
      if channelSchema.None? {
        return Abort("no_channels");
      }
      result := ShowForm("channels", ChannelsSchema(channelSchema.value), errors);
    }
  }
}
