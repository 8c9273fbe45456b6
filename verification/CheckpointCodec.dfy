/** The wire format of checkpoints: tagged blocks, optional fields, and a schema version. */
module CheckpointCodec {
  import opened Wrappers
  import opened Blocks
  import opened StoreSpec

  /** The keys of the format. */
  datatype Key =
    | Tag | TextKey | ThinkingKey | SignatureKey | IdKey | NameKey | InputKey | CallIdKey | ContentKey | ValueKey
    | RoleKey | SummaryVersionKey | SchemaVersionKey | ActionKey | MessagesKey | NextTurnKey | RemainingKey
    | ResponseKey | ApprovalKey | IdentityKey | PlatformKey | ConversationKey | SenderKey | MessageKey | MetadataKey
    | TenantKey | PreviousKey | ProviderKey | ModelKey | SkillsKey | VersionKey | DigestKey

  /** A JSON value; `Raw` is the JSON text of a value that is passed through. */
  datatype Json =
    | Null | Str(text: string) | Int(n: int) | Raw(json: string) | List(items: seq<Json>)
    | Object(fields: map<Key, Json>)

  type Fields = map<Key, Json>

  datatype CodecError = MissingKey(key: Key) | UnknownTag | UnsupportedVersion(version: nat)

  const VERSION := 1

  /******* Blocks *******/

  function DictFields(role: string, content: string, version: Option<nat>): Fields {
    map[RoleKey := Str(role), ContentKey := Str(content)]
      + if version.Some? then map[SummaryVersionKey := Int(version.value)] else map[]
  }

  function EncodeBlock(b: Block): Fields {
    match b
    case Text(text) => map[Tag := Str("text"), TextKey := Str(text)]
    case Thinking(thinking, signature) =>
      map[Tag := Str("thinking"), ThinkingKey := Str(thinking), SignatureKey := Str(signature)]
    case ToolUse(call) =>
      map[Tag := Str("tool_call"), IdKey := Str(call.id), NameKey := Str(call.name), InputKey := Raw(call.input)]
    case ToolResult(id, content) =>
      map[Tag := Str("tool_result"), CallIdKey := Str(id), ContentKey := Str(content)]
    case Dict(role, content, version) =>
      map[Tag := Str("dict"), ValueKey := Object(DictFields(role, content, version))]
  }

  function EncodedBlocks(blocks: seq<Block>): seq<Json> {
    if blocks == [] then []
    else EncodedBlocks(blocks[..|blocks| - 1]) + [Object(EncodeBlock(blocks[|blocks| - 1]))]
  }

  method EncodeBlocks(blocks: seq<Block>) returns (encoded: seq<Json>)
    ensures encoded == EncodedBlocks(blocks)
  {
    encoded := [];
    for i := 0 to |blocks|
      invariant encoded == EncodedBlocks(blocks[..i])
    {
      assert blocks[..i + 1][..i] == blocks[..i];
      match blocks[i]
      case Text(text) => encoded := encoded + [Object(map[Tag := Str("text"), TextKey := Str(text)])];
      case Thinking(thinking, signature) =>
        encoded := encoded + [Object(map[Tag := Str("thinking"), ThinkingKey := Str(thinking), SignatureKey := Str(signature)])];
      case ToolUse(call) =>
        encoded := encoded + [Object(map[Tag := Str("tool_call"), IdKey := Str(call.id), NameKey := Str(call.name),
                                         InputKey := Raw(call.input)])];
      case ToolResult(id, content) =>
        encoded := encoded + [Object(map[Tag := Str("tool_result"), CallIdKey := Str(id), ContentKey := Str(content)])];
      case Dict(role, content, version) =>
        encoded := encoded + [Object(map[Tag := Str("dict"), ValueKey := Object(DictFields(role, content, version))])];
    }
    assert blocks[..|blocks|] == blocks;
  }

  function StrField(f: Fields, key: Key): Result<string, CodecError> {
    if key in f && f[key].Str? then Ok(f[key].text) else Err(MissingKey(key))
  }

  /** A key with a default. */
  function StrOr(f: Fields, key: Key, fallback: string): string {
    if key in f && f[key].Str? then f[key].text else fallback
  }

  function DecodeDict(value: Json): Result<Block, CodecError> {
    if !value.Object? || StrField(value.fields, RoleKey).Err? || StrField(value.fields, ContentKey).Err?
    then Err(MissingKey(ValueKey))
    else
      var f := value.fields;
      var version := if SummaryVersionKey in f && f[SummaryVersionKey].Int? && f[SummaryVersionKey].n >= 0
                     then Some(f[SummaryVersionKey].n as nat) else None;
      Ok(Dict(f[RoleKey].text, f[ContentKey].text, version))
  }

  /** Signatures and inputs may be missing in old checkpoints. */
  function DecodeBlock(value: Json): Result<Block, CodecError> {
    if !value.Object? || StrField(value.fields, Tag).Err? then Err(MissingKey(Tag))
    else
      var f := value.fields;
      match f[Tag].text
      case "text" =>
        if StrField(f, TextKey).Err? then Err(MissingKey(TextKey)) else Ok(Text(f[TextKey].text))
      case "thinking" =>
        if StrField(f, ThinkingKey).Err? then Err(MissingKey(ThinkingKey))
        else Ok(Thinking(f[ThinkingKey].text, StrOr(f, SignatureKey, "")))
      case "tool_call" =>
        if StrField(f, IdKey).Err? then Err(MissingKey(IdKey))
        else if StrField(f, NameKey).Err? then Err(MissingKey(NameKey))
        else Ok(ToolUse(Call(f[IdKey].text, f[NameKey].text,
                             if InputKey in f && f[InputKey].Raw? then f[InputKey].json else "{}")))
      case "tool_result" =>
        if StrField(f, CallIdKey).Err? then Err(MissingKey(CallIdKey))
        else if StrField(f, ContentKey).Err? then Err(MissingKey(ContentKey))
        else Ok(ToolResult(f[CallIdKey].text, f[ContentKey].text))
      case "dict" => if ValueKey in f then DecodeDict(f[ValueKey]) else Err(MissingKey(ValueKey))
      case _ => Err(UnknownTag)
  }

  function DecodeBlocks(values: seq<Json>): (r: Result<seq<Block>, CodecError>)
    ensures r.Err? ==> !r.error.UnsupportedVersion?
  {
    if values == [] then Ok([])
    else
      match (DecodeBlocks(values[..|values| - 1]), DecodeBlock(values[|values| - 1]))
      case (Ok(front), Ok(last)) => Ok(front + [last])
      case (Err(error), _) => Err(error)
      case (_, Err(error)) => Err(error)
  }

  lemma BlockRoundTrip(b: Block)
    ensures DecodeBlock(Object(EncodeBlock(b))) == Ok(b)
  {
    if b.Dict? {
      var f := DictFields(b.role, b.content, b.summaryVersion);
      assert f[RoleKey] == Str(b.role) && f[ContentKey] == Str(b.content);
      assert SummaryVersionKey in f <==> b.summaryVersion.Some?;
    }
  }

  lemma {:induction false} BlocksRoundTrip(blocks: seq<Block>)
    ensures DecodeBlocks(EncodedBlocks(blocks)) == Ok(blocks)
  {
    if blocks != [] {
      var front, last := blocks[..|blocks| - 1], blocks[|blocks| - 1];
      BlocksRoundTrip(front);
      BlockRoundTrip(last);
      assert EncodedBlocks(blocks)[..|EncodedBlocks(blocks)| - 1] == EncodedBlocks(front);
      assert front + [last] == blocks;
    }
  }

  /******* Checkpoint states *******/

  function ActionName(action: Action): string {
    match action
    case Model => "model"
    case Tools => "tools"
    case Finalize => "finalize"
    case AwaitApproval => "approval"
  }

  function ActionOf(name: string): (action: Option<Action>)
    ensures action.Some? ==> ActionName(action.value) == name
  {
    match name
    case "model" => Some(Model)
    case "tools" => Some(Tools)
    case "finalize" => Some(Finalize)
    case "approval" => Some(AwaitApproval)
    case _ => None
  }

  function CallBlocks(calls: seq<Call>): seq<Block> {
    if calls == [] then [] else CallBlocks(calls[..|calls| - 1]) + [ToolUse(calls[|calls| - 1])]
  }

  /** Writes a field only if it has a value. */
  function With(f: Fields, key: Key, value: Option<Json>): Fields {
    if value.Some? then f[key := value.value] else f
  }

  function StrOf(text: Option<string>): Option<Json> {
    if text.Some? then Some(Str(text.value)) else None
  }

  function IntOf(n: Option<nat>): Option<Json> {
    if n.Some? then Some(Int(n.value)) else None
  }

  /** Who the run talks to; the tenant is what the metadata say about it. */
  function EncodeIdentity(identity: Option<Identity>): Json {
    if identity.None? then Null
    else
      var i := identity.value;
      Object(map[PlatformKey := Str(i.platform), ConversationKey := Str(i.conversation), SenderKey := Str(i.sender),
                 MessageKey := Str(i.message), MetadataKey := Object(map[TenantKey := Str(i.tenant)])])
  }

  /** A skill the run was started with, pinned by version and content. */
  datatype Skill = Skill(name: string, version: string, digest: string)

  /** What a checkpoint carries besides the recoverable state, for the provider and for the skills. */
  datatype Extras = Extras(
    previous: Option<string>, summaryVersion: Option<nat>, provider: Option<string>, model: Option<string>,
    skills: seq<Skill>)

  function EncodeSkill(skill: Skill): Json {
    Object(map[NameKey := Str(skill.name), VersionKey := Str(skill.version), DigestKey := Str(skill.digest)])
  }

  function EncodedSkills(skills: seq<Skill>): seq<Json> {
    if skills == [] then [] else EncodedSkills(skills[..|skills| - 1]) + [EncodeSkill(skills[|skills| - 1])]
  }

  /** Remaining calls are written, even if there are none, when the caller passes a list; skills only if there are any. */
  function EncodeState(s: State, x: Extras, passRemaining: bool): Fields {
    var skills := if x.skills != [] then Some(List(EncodedSkills(x.skills))) else None;
    var f := With(AlwaysWritten(s, x), RemainingKey, RemainingOf(s, passRemaining));
    WithExtras(With(With(f, ResponseKey, StrOf(s.response)), ApprovalKey, IntOf(s.approval)), x, skills)
  }

  function RemainingOf(s: State, passRemaining: bool): Option<Json> {
    if passRemaining || s.remaining != [] then Some(List(EncodedBlocks(CallBlocks(s.remaining)))) else None
  }

  function AlwaysWritten(s: State, x: Extras): Fields {
    map[SchemaVersionKey := Int(VERSION), ActionKey := Str(ActionName(s.action)),
        MessagesKey := List(EncodedBlocks(s.messages)),
        PreviousKey := if x.previous.Some? then Str(x.previous.value) else Null,
        NextTurnKey := Int(s.nextTurn), IdentityKey := EncodeIdentity(s.identity)]
  }

  function WithExtras(f: Fields, x: Extras, skills: Option<Json>): Fields {
    With(With(With(With(f, SummaryVersionKey, IntOf(x.summaryVersion)), ProviderKey, StrOf(x.provider)),
              ModelKey, StrOf(x.model)), SkillsKey, skills)
  }

  /** Replaces the messages of an encoded state and stamps the current version. */
  function ReplaceMessages(f: Fields, messages: seq<Block>): Fields {
    f[SchemaVersionKey := Int(VERSION)][MessagesKey := List(EncodedBlocks(messages))]
  }

  function At(f: Fields, key: Key): Option<Json> {
    if key in f then Some(f[key]) else None
  }

  function AsNat(value: Option<Json>): Option<nat> {
    if value.Some? && value.value.Int? && value.value.n >= 0 then Some(value.value.n as nat) else None
  }

  function AsStr(value: Option<Json>): Option<string> {
    if value.Some? && value.value.Str? then Some(value.value.text) else None
  }

  function AsList(value: Option<Json>): seq<Json> {
    if value.Some? && value.value.List? then value.value.items else []
  }

  /** What the known keys of a stored checkpoint hold. */
  datatype Wire = Wire(
    version: nat, action: Option<string>, messages: seq<Json>, remaining: seq<Json>, response: Option<string>,
    approval: Option<nat>, turn: Option<nat>, identity: Option<Json>, previous: Option<string>,
    summaryVersion: Option<nat>, provider: Option<string>, model: Option<string>, skills: seq<Json>)

  /** Version 0 is the format before versions were written. */
  function Read(f: Fields): Wire {
    var version := AsNat(At(f, SchemaVersionKey));
    Wire(if version.Some? then version.value else 0, AsStr(At(f, ActionKey)), AsList(At(f, MessagesKey)),
         AsList(At(f, RemainingKey)), AsStr(At(f, ResponseKey)), AsNat(At(f, ApprovalKey)), AsNat(At(f, NextTurnKey)),
         At(f, IdentityKey), AsStr(At(f, PreviousKey)), AsNat(At(f, SummaryVersionKey)), AsStr(At(f, ProviderKey)),
         AsStr(At(f, ModelKey)), AsList(At(f, SkillsKey)))
  }

  function CallsOf(blocks: seq<Block>): seq<Call> {
    if blocks == [] then []
    else
      CallsOf(blocks[..|blocks| - 1])
      + if blocks[|blocks| - 1].ToolUse? then [blocks[|blocks| - 1].call] else []
  }

  /** A missing or empty identity is none; an incomplete one cannot be restored. */
  function DecodeIdentity(value: Option<Json>): Result<Option<Identity>, CodecError> {
    if value.None? || !value.value.Object? || value.value.fields == map[] then Ok(None)
    else
      var f := value.value.fields;
      if StrField(f, PlatformKey).Err? then Err(MissingKey(PlatformKey))
      else if StrField(f, ConversationKey).Err? then Err(MissingKey(ConversationKey))
      else if StrField(f, SenderKey).Err? then Err(MissingKey(SenderKey))
      else if StrField(f, MessageKey).Err? then Err(MissingKey(MessageKey))
      else
        var tenant := if MetadataKey in f && f[MetadataKey].Object? then StrOr(f[MetadataKey].fields, TenantKey, "default")
                      else "default";
        Ok(Some(Identity(tenant, f[PlatformKey].text, f[ConversationKey].text, f[SenderKey].text, f[MessageKey].text)))
  }

  /** The recoverable part of a checkpoint. */
  function StateFrom(w: Wire): Result<State, CodecError> {
    if w.version > VERSION then Err(UnsupportedVersion(w.version))
    else
      var messages, remaining := DecodeBlocks(w.messages), DecodeBlocks(w.remaining);
      var identity := DecodeIdentity(w.identity);
      if messages.Err? then Err(messages.error)
      else if remaining.Err? then Err(remaining.error)
      else if identity.Err? then Err(identity.error)
      else if w.action.None? || ActionOf(w.action.value).None? then Err(MissingKey(ActionKey))
      else
        Ok(State(ActionOf(w.action.value).value, messages.value, CallsOf(remaining.value), w.response, w.approval,
                 if w.turn.Some? then w.turn.value else 0, identity.value))
  }

  function DecodeState(f: Fields): Result<State, CodecError> {
    StateFrom(Read(f))
  }

  function DecodeSkill(value: Json): Option<Skill> {
    if !value.Object? || StrField(value.fields, NameKey).Err? || StrField(value.fields, VersionKey).Err?
       || StrField(value.fields, DigestKey).Err?
    then None
    else Some(Skill(value.fields[NameKey].text, value.fields[VersionKey].text, value.fields[DigestKey].text))
  }

  function DecodedSkills(values: seq<Json>): Option<seq<Skill>> {
    if values == [] then Some([])
    else
      var front, last := DecodedSkills(values[..|values| - 1]), DecodeSkill(values[|values| - 1]);
      if front.None? || last.None? then None else Some(front.value + [last.value])
  }

  function ExtrasFrom(w: Wire): Result<Extras, CodecError> {
    if w.version > VERSION then Err(UnsupportedVersion(w.version))
    else if DecodedSkills(w.skills).None? then Err(MissingKey(SkillsKey))
    else Ok(Extras(w.previous, w.summaryVersion, w.provider, w.model, DecodedSkills(w.skills).value))
  }

  function DecodeExtras(f: Fields): Result<Extras, CodecError> {
    ExtrasFrom(Read(f))
  }

  lemma {:induction false} CallsRoundTrip(calls: seq<Call>)
    ensures CallsOf(CallBlocks(calls)) == calls
  {
    if calls != [] {
      CallsRoundTrip(calls[..|calls| - 1]);
      assert CallBlocks(calls)[..|CallBlocks(calls)| - 1] == CallBlocks(calls[..|calls| - 1]);
    }
  }

  lemma {:induction false} SkillsRoundTrip(skills: seq<Skill>)
    ensures DecodedSkills(EncodedSkills(skills)) == Some(skills)
  {
    if skills != [] {
      var front, last := skills[..|skills| - 1], skills[|skills| - 1];
      SkillsRoundTrip(front);
      SkillRoundTrip(last);
      assert EncodedSkills(skills)[..|EncodedSkills(skills)| - 1] == EncodedSkills(front);
      assert front + [last] == skills;
    }
  }

  lemma SkillRoundTrip(skill: Skill)
    ensures DecodeSkill(EncodeSkill(skill)) == Some(skill)
  {
    var f := EncodeSkill(skill).fields;
    assert f[NameKey] == Str(skill.name) && f[VersionKey] == Str(skill.version) && f[DigestKey] == Str(skill.digest);
  }

  lemma ActionRoundTrip(action: Action)
    ensures ActionOf(ActionName(action)) == Some(action)
  {
  }

  lemma IdentityRoundTrip(identity: Option<Identity>)
    ensures DecodeIdentity(Some(EncodeIdentity(identity))) == Ok(identity)
  {
    if identity.Some? {
      var f := EncodeIdentity(identity).fields;
      assert PlatformKey in f && f[MetadataKey].fields == map[TenantKey := Str(identity.value.tenant)];
    }
  }

  lemma WithAt(f: Fields, key: Key, value: Option<Json>, other: Key)
    ensures At(With(f, key, value), other) == if other == key && value.Some? then value else At(f, other)
  {
  }

  /** Optional fields do not disturb one another. */
  lemma ExtrasAt(f: Fields, x: Extras, skills: Option<Json>, key: Key)
    requires At(f, SummaryVersionKey).None? && At(f, ProviderKey).None? && At(f, ModelKey).None? && At(f, SkillsKey).None?
    ensures At(WithExtras(f, x, skills), key)
              == match key
                 case SummaryVersionKey => IntOf(x.summaryVersion)
                 case ProviderKey => StrOf(x.provider)
                 case ModelKey => StrOf(x.model)
                 case SkillsKey => skills
                 case _ => At(f, key)
  {
    var summarised := With(f, SummaryVersionKey, IntOf(x.summaryVersion));
    var provided := With(summarised, ProviderKey, StrOf(x.provider));
    WithAt(f, SummaryVersionKey, IntOf(x.summaryVersion), key);
    WithAt(summarised, ProviderKey, StrOf(x.provider), key);
    WithAt(provided, ModelKey, StrOf(x.model), key);
    WithAt(With(provided, ModelKey, StrOf(x.model)), SkillsKey, skills, key);
  }

  /** What is found under each key of an encoded state. */
  lemma EncodedAt(s: State, x: Extras, passRemaining: bool, key: Key)
    ensures At(EncodeState(s, x, passRemaining), key)
              == match key
                 case SummaryVersionKey => IntOf(x.summaryVersion)
                 case ProviderKey => StrOf(x.provider)
                 case ModelKey => StrOf(x.model)
                 case SkillsKey => if x.skills != [] then Some(List(EncodedSkills(x.skills))) else None
                 case RemainingKey => RemainingOf(s, passRemaining)
                 case ResponseKey => StrOf(s.response)
                 case ApprovalKey => IntOf(s.approval)
                 case _ => At(AlwaysWritten(s, x), key)
  {
    var f := AlwaysWritten(s, x);
    var remaining := RemainingOf(s, passRemaining);
    var skills := if x.skills != [] then Some(List(EncodedSkills(x.skills))) else None;
    var called := With(f, RemainingKey, remaining);
    var answered := With(called, ResponseKey, StrOf(s.response));
    var approved := With(answered, ApprovalKey, IntOf(s.approval));
    StateAt(f, s, remaining, key);
    StateAt(f, s, remaining, SummaryVersionKey);
    StateAt(f, s, remaining, ProviderKey);
    StateAt(f, s, remaining, ModelKey);
    StateAt(f, s, remaining, SkillsKey);
    ExtrasAt(approved, x, skills, key);
  }

  lemma StateAt(f: Fields, s: State, remaining: Option<Json>, key: Key)
    requires At(f, RemainingKey).None? && At(f, ResponseKey).None? && At(f, ApprovalKey).None?
    ensures At(With(With(With(f, RemainingKey, remaining), ResponseKey, StrOf(s.response)), ApprovalKey, IntOf(s.approval)),
               key)
              == match key
                 case RemainingKey => remaining
                 case ResponseKey => StrOf(s.response)
                 case ApprovalKey => IntOf(s.approval)
                 case _ => At(f, key)
  {
    var called := With(f, RemainingKey, remaining);
    WithAt(f, RemainingKey, remaining, key);
    WithAt(called, ResponseKey, StrOf(s.response), key);
    WithAt(With(called, ResponseKey, StrOf(s.response)), ApprovalKey, IntOf(s.approval), key);
  }

  /** What a reader finds in an encoded checkpoint. */
  function WireOf(s: State, x: Extras): Wire {
    Wire(VERSION, Some(ActionName(s.action)), EncodedBlocks(s.messages), EncodedBlocks(CallBlocks(s.remaining)),
         s.response, s.approval, Some(s.nextTurn), Some(EncodeIdentity(s.identity)), x.previous, x.summaryVersion,
         x.provider, x.model, EncodedSkills(x.skills))
  }

  lemma RequiredFields(s: State, x: Extras, passRemaining: bool)
    ensures var f := EncodeState(s, x, passRemaining);
            && At(f, SchemaVersionKey) == Some(Int(VERSION)) && At(f, ActionKey) == Some(Str(ActionName(s.action)))
            && At(f, NextTurnKey) == Some(Int(s.nextTurn)) && At(f, MessagesKey) == Some(List(EncodedBlocks(s.messages)))
            && At(f, IdentityKey) == Some(EncodeIdentity(s.identity))
            && AsStr(At(f, PreviousKey)) == x.previous
  {
    EncodedAt(s, x, passRemaining, SchemaVersionKey);
    EncodedAt(s, x, passRemaining, ActionKey);
    EncodedAt(s, x, passRemaining, NextTurnKey);
    EncodedAt(s, x, passRemaining, MessagesKey);
    EncodedAt(s, x, passRemaining, IdentityKey);
    EncodedAt(s, x, passRemaining, PreviousKey);
  }

  lemma OptionalFields(s: State, x: Extras, passRemaining: bool)
    ensures var f := EncodeState(s, x, passRemaining);
            && AsList(At(f, RemainingKey)) == EncodedBlocks(CallBlocks(s.remaining))
            && At(f, ResponseKey) == StrOf(s.response) && At(f, ApprovalKey) == IntOf(s.approval)
            && At(f, SummaryVersionKey) == IntOf(x.summaryVersion) && At(f, ProviderKey) == StrOf(x.provider)
            && At(f, ModelKey) == StrOf(x.model) && AsList(At(f, SkillsKey)) == EncodedSkills(x.skills)
  {
    EncodedAt(s, x, passRemaining, RemainingKey);
    EncodedAt(s, x, passRemaining, ResponseKey);
    EncodedAt(s, x, passRemaining, ApprovalKey);
    EncodedAt(s, x, passRemaining, SummaryVersionKey);
    EncodedAt(s, x, passRemaining, ProviderKey);
    EncodedAt(s, x, passRemaining, ModelKey);
    EncodedAt(s, x, passRemaining, SkillsKey);
  }

  lemma EncodedIsRead(s: State, x: Extras, passRemaining: bool)
    ensures Read(EncodeState(s, x, passRemaining)) == WireOf(s, x)
  {
    RequiredFields(s, x, passRemaining);
    OptionalFields(s, x, passRemaining);
  }

  lemma WireRoundTrip(s: State, x: Extras)
    ensures StateFrom(WireOf(s, x)) == Ok(s) && ExtrasFrom(WireOf(s, x)) == Ok(x)
  {
    BlocksRoundTrip(s.messages);
    BlocksRoundTrip(CallBlocks(s.remaining));
    CallsRoundTrip(s.remaining);
    ActionRoundTrip(s.action);
    IdentityRoundTrip(s.identity);
    SkillsRoundTrip(x.skills);
  }

  /** Every checkpoint comes back from its encoding as it was, identity, skills and provider data included, whether or
      not an empty call list was written. */
  lemma StateRoundTrip(s: State, x: Extras, passRemaining: bool)
    ensures DecodeState(EncodeState(s, x, passRemaining)) == Ok(s)
    ensures DecodeExtras(EncodeState(s, x, passRemaining)) == Ok(x)
  {
    EncodedIsRead(s, x, passRemaining);
    WireRoundTrip(s, x);
  }

  /** Messages and version of a checkpoint can be replaced without touching the rest. */
  lemma ReplacedOnTheWire(w: Wire, s: State, x: Extras, messages: seq<Block>)
    requires StateFrom(w) == Ok(s) && ExtrasFrom(w) == Ok(x)
    ensures var next := w.(version := VERSION, messages := EncodedBlocks(messages));
            StateFrom(next) == Ok(s.(messages := messages)) && ExtrasFrom(next) == Ok(x)
  {
    BlocksRoundTrip(messages);
  }

  /** Replacing the messages of a decodable checkpoint changes nothing else, whichever version it had. */
  lemma ReplacingMessagesKeepsTheRest(f: Fields, s: State, x: Extras, messages: seq<Block>)
    requires DecodeState(f) == Ok(s) && DecodeExtras(f) == Ok(x)
    ensures DecodeState(ReplaceMessages(f, messages)) == Ok(s.(messages := messages))
    ensures DecodeExtras(ReplaceMessages(f, messages)) == Ok(x)
  {
    assert Read(ReplaceMessages(f, messages)) == Read(f).(version := VERSION, messages := EncodedBlocks(messages));
    ReplacedOnTheWire(Read(f), s, x, messages);
  }

  /** A checkpoint from before versions were written still comes back as the state and extras it was made from; under
      any later version the same fields are refused for that version. */
  lemma OldCheckpointsStillDecode(s: State, x: Extras, passRemaining: bool, version: nat)
    ensures var f := EncodeState(s, x, passRemaining) - {SchemaVersionKey};
            && DecodeState(f) == Ok(s) && DecodeExtras(f) == Ok(x)
            && DecodeState(f[SchemaVersionKey := Int(version)])
                 == if version <= VERSION then Ok(s) else Err(UnsupportedVersion(version))
  {
    var current := EncodeState(s, x, passRemaining);
    EncodedIsRead(s, x, passRemaining);
    Restamped(current, version);
    RestampedWire(s, x, 0);
    RestampedWire(s, x, version);
  }

  lemma Restamped(f: Fields, version: nat)
    ensures var unstamped := f - {SchemaVersionKey};
            && Read(unstamped) == Read(f).(version := 0)
            && Read(unstamped[SchemaVersionKey := Int(version)]) == Read(f).(version := version)
  {
  }

  lemma RestampedWire(s: State, x: Extras, version: nat)
    ensures var w := WireOf(s, x).(version := version);
            if version <= VERSION then StateFrom(w) == Ok(s) && ExtrasFrom(w) == Ok(x)
            else StateFrom(w) == Err(UnsupportedVersion(version))
  {
    WireRoundTrip(s, x);
  }
}
