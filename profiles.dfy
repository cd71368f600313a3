/**
 Profile resolution: a named identifier is looked up in the library's catalog,
 a custom definition is turned into a profile whose orderings are kept as given.
 */
module Profiles {
  import opened FactoryTypes

  /** Named lookup with the default profile as the fallback; it never fails. */
  function GetTlsClientProfile(lib: Library, identifier: string): (p: ClientProfile)
    ensures identifier in lib.catalog ==> p == lib.catalog[identifier]
    ensures identifier !in lib.catalog ==> p == lib.defaultProfile
    // The two clauses above, read together: whatever the identifier, the result is a
    // profile the library knows, never an error and never a zero value.
    ensures p in lib.catalog.Values || p == lib.defaultProfile
  {
    if identifier in lib.catalog then lib.catalog[identifier] else lib.defaultProfile
  }

  /** The conversion `http2.SettingID(key)` of a 16-bit setting code. */
  function Setting(code: UInt16): (s: SettingId)
    ensures s as int == code as int
  {
    code as int as SettingId
  }

  /** The inverse of Setting. */
  function Code(setting: SettingId): (c: UInt16)
    ensures c as int == setting as int
    ensures Setting(c) == setting
  {
    setting as int as UInt16
  }

  /** The caller's settings as typed settings, pair for pair. */
  function ConvertSettings(settings: map<UInt16, UInt32>): map<SettingId, UInt32>
  {
    map code | code in settings :: Setting(code) := settings[code]
  }

  /** The caller's settings order as typed settings, element for element. */
  function ConvertOrder(order: seq<UInt16>): seq<SettingId>
  {
    seq(|order|, i requires 0 <= i < |order| => Setting(order[i]))
  }

  /** One priority frame copied field by field into the library's type. */
  function ConvertPriority(frame: PriorityFrameInput): Priority
  {
    Priority(frame.streamId,
             PriorityParam(frame.priorityParam.streamDep, frame.priorityParam.exclusive, frame.priorityParam.weight))
  }

  function ConvertPriorities(frames: seq<PriorityFrameInput>): seq<Priority>
  {
    seq(|frames|, i requires 0 <= i < |frames| => ConvertPriority(frames[i]))
  }

  /** The synthetic handshake identity of a custom profile. */
  function CustomHelloId(factory: SpecFactory): ClientHelloId
  {
    ClientHelloId("Custom", "1", None, Some(factory))
  }

  /** The profile a custom definition stands for, or the JA3 parser's failure. */
  function CustomProfileOf(lib: Library, custom: CustomTlsClient): (r: Result<ClientProfile>)
    ensures r.Err? <==> lib.parseJa3(custom.ja3String).None?
    ensures r.Err? ==> r.error == Ja3Rejected
    ensures r.Ok? ==>
      && r.value.clientHelloId == ClientHelloId("Custom", "1", None, lib.parseJa3(custom.ja3String))
      && r.value.pseudoHeaderOrder == custom.pseudoHeaderOrder
      && r.value.connectionFlow == custom.connectionFlow
  {
    match lib.parseJa3(custom.ja3String)
    case None => Err(Ja3Rejected)
    case Some(factory) =>
      Ok(ClientProfile(CustomHelloId(factory), ConvertSettings(custom.h2Settings),
                       ConvertOrder(custom.h2SettingsOrder), custom.pseudoHeaderOrder,
                       custom.connectionFlow, ConvertPriorities(custom.priorityFrames)))
  }

  /**
   The profile a new client of this input gets: a custom definition is converted
   first (and its failure ends resolution), then a named identifier, when given,
   takes precedence; with neither, the Go variable keeps its zero value.
   */
  function ResolveProfile(lib: Library, input: RequestInput): (r: Result<ClientProfile>)
    ensures r.Err? <==> input.customTlsClient.Some? && lib.parseJa3(input.customTlsClient.value.ja3String).None?
    ensures r.Err? ==> r.error == Ja3Rejected
    ensures r.Ok? && input.tlsClientIdentifier != "" ==>
      r.value == GetTlsClientProfile(lib, input.tlsClientIdentifier)
    ensures r.Ok? && input.tlsClientIdentifier == "" && input.customTlsClient.Some? ==>
      r == CustomProfileOf(lib, input.customTlsClient.value)
    ensures input.tlsClientIdentifier == "" && input.customTlsClient.None? ==> r == Ok(ZeroProfile)
  {
    var custom := if input.customTlsClient.Some? then CustomProfileOf(lib, input.customTlsClient.value)
                  else Ok(ZeroProfile);
    if custom.Err? then custom
    else if input.tlsClientIdentifier != "" then Ok(GetTlsClientProfile(lib, input.tlsClientIdentifier))
    else custom
  }

  /** A custom profile keeps every ordering verbatim and every setting pair. */
  lemma CustomProfilePreserves(lib: Library, custom: CustomTlsClient)
    ensures CustomProfileOf(lib, custom).Err? <==> lib.parseJa3(custom.ja3String).None?
    ensures CustomProfileOf(lib, custom).Ok? ==>
      var p := CustomProfileOf(lib, custom).value;
      && p.clientHelloId == ClientHelloId("Custom", "1", None, lib.parseJa3(custom.ja3String))
      && |p.settingsOrder| == |custom.h2SettingsOrder|
      && (forall i :: 0 <= i < |p.settingsOrder| ==> p.settingsOrder[i] as int == custom.h2SettingsOrder[i] as int)
      && (forall code :: code in custom.h2Settings <==> Setting(code) in p.settings)
      && (forall code :: code in custom.h2Settings ==> p.settings[Setting(code)] == custom.h2Settings[code])
      && p.pseudoHeaderOrder == custom.pseudoHeaderOrder
      && p.connectionFlow == custom.connectionFlow
      && |p.priorities| == |custom.priorityFrames|
      && (forall i :: 0 <= i < |p.priorities| ==>
            && p.priorities[i].streamId == custom.priorityFrames[i].streamId
            && p.priorities[i].priorityParam.streamDep == custom.priorityFrames[i].priorityParam.streamDep
            && p.priorities[i].priorityParam.exclusive == custom.priorityFrames[i].priorityParam.exclusive
            && p.priorities[i].priorityParam.weight == custom.priorityFrames[i].priorityParam.weight)
  {
  }

  /** A settings order given as 2, 4, 1 stays 2, 4, 1: it is not sorted. */
  lemma SettingsOrderNotSorted(lib: Library, custom: CustomTlsClient)
    requires custom.h2SettingsOrder == [2, 4, 1]
    requires lib.parseJa3(custom.ja3String).Some?
    ensures CustomProfileOf(lib, custom).Ok?
    ensures CustomProfileOf(lib, custom).value.settingsOrder == [2, 4, 1]
  {
  }

  /** With exactly one of identifier and custom definition, resolution picks that one. */
  lemma ResolveProfileOfOneChoice(lib: Library, input: RequestInput)
    requires (input.tlsClientIdentifier != "") != input.customTlsClient.Some?
    ensures input.tlsClientIdentifier != "" ==>
      ResolveProfile(lib, input) == Ok(GetTlsClientProfile(lib, input.tlsClientIdentifier))
    ensures input.customTlsClient.Some? ==>
      ResolveProfile(lib, input) == CustomProfileOf(lib, input.customTlsClient.value)
  {
  }

  /**
   GetCustomTlsClientProfile: parses the JA3 string through the library, then fills the
   settings map, the settings order and the priority frames with loops.
   */
  method GetCustomTlsClientProfile(lib: Library, custom: CustomTlsClient) returns (r: Result<ClientProfile>)
    ensures r == CustomProfileOf(lib, custom)
  {
    var specFactory := lib.parseJa3(custom.ja3String);
    if specFactory.None? {
      return Err(Ja3Rejected);
    }

    var h2Settings: map<SettingId, UInt32> := map[];
    var pending := custom.h2Settings.Keys;
    while pending != {}
      invariant pending <= custom.h2Settings.Keys
      invariant forall s :: s in h2Settings <==> Code(s) in custom.h2Settings && Code(s) !in pending
      invariant forall s :: s in h2Settings ==> h2Settings[s] == custom.h2Settings[Code(s)]
      decreases pending
    {
      var code :| code in pending;
      h2Settings := h2Settings[Setting(code) := custom.h2Settings[code]];
      pending := pending - {code};
    }
    assert h2Settings == ConvertSettings(custom.h2Settings);

    var h2SettingsOrder: seq<SettingId> := [];
    for i := 0 to |custom.h2SettingsOrder|
      invariant |h2SettingsOrder| == i
      invariant forall j :: 0 <= j < i ==> h2SettingsOrder[j] == Setting(custom.h2SettingsOrder[j])
    {
      h2SettingsOrder := h2SettingsOrder + [Setting(custom.h2SettingsOrder[i])];
    }
    assert h2SettingsOrder == ConvertOrder(custom.h2SettingsOrder);

    var priorityFrames: seq<Priority> := [];
    for i := 0 to |custom.priorityFrames|
      invariant |priorityFrames| == i
      invariant forall j :: 0 <= j < i ==> priorityFrames[j] == ConvertPriority(custom.priorityFrames[j])
    {
      var priority := custom.priorityFrames[i];
      priorityFrames := priorityFrames + [Priority(priority.streamId,
        PriorityParam(priority.priorityParam.streamDep, priority.priorityParam.exclusive, priority.priorityParam.weight))];
    }

    assert priorityFrames == ConvertPriorities(custom.priorityFrames);

    var clientHelloId := ClientHelloId("Custom", "1", None, Some(specFactory.value));
    r := Ok(ClientProfile(clientHelloId, h2Settings, h2SettingsOrder, custom.pseudoHeaderOrder,
                          custom.connectionFlow, priorityFrames));
  }
}
