/** The command and response headers of a stream: how they are written and how they are parsed. */
module Headers {
  import opened Options
  import opened CStrings
  import opened Decimals
  import Markov

  const PASSWORD: string := "T8nNx9L95LATtckJkR5n"
  const TEN_MIB: nat := 1024 * 1024 * 10

  datatype StreamError =
    | NoError | BadAuth | BadHeader | HeaderIncomplete | HeaderVersion | HeaderModelMode
    | HeaderModelPath | HeaderModelSize | BadModel | BadChecksum | BadFooter | ReadError
    | WriteError | ReadEof | WriteEof | Timeout | Stallout | ProxyError | MiscError

  function ErrorText(e: StreamError): string {
    match e
    case NoError => "NONE"
    case BadAuth => "AUTH"
    case BadHeader => "HEADER"
    case HeaderIncomplete => "HEADER_INCOMPLETE"
    case HeaderVersion => "HEADER_VERSION"
    case HeaderModelMode => "HEADER_MODELMODE"
    case HeaderModelPath => "HEADER_MODELPATH"
    case HeaderModelSize => "HEADER_MODELSIZE"
    case BadModel => "MODEL"
    case BadChecksum => "CHECKSUM"
    case BadFooter => "FOOTER"
    case ReadError => "READ"
    case WriteError => "WRITE"
    case ReadEof => "READEOF"
    case WriteEof => "WRITEEOF"
    case Timeout => "TIMEOUT"
    case Stallout => "STALLOUT"
    case ProxyError => "PROXY"
    case MiscError => "MISC"
  }

  /** What a stream depends on from outside: graph loading for a seed, the built-in model, MD5. */
  datatype Env = Env(
    fromText: (string, nat) -> Option<Markov.Model>,
    fromPath: (string, nat) -> Option<Markov.Model>,
    internalName: string,
    internalText: string,
    md5: string -> string)

  /** Requested payload sizes. Zero bytes means "none" with the zero flag and "until the model
      ends" without it. */
  datatype Sizes = Sizes(send: nat, sendZero: bool, recv: nat, recvZero: bool)

  function Swap(s: Sizes): Sizes {
    Sizes(s.recv, s.recvZero, s.send, s.sendZero)
  }

  datatype Key =
    | Protocol | Hostname | TransferId | Code | SendSize | RecvSize
    | ModelName | ModelSeed | ModelMode | ModelPath | ModelSize | Unknown

  predicate IsWordChar(c: char) {
    'A' <= c <= 'Z' || c == '_'
  }

  function KeyText(k: Key): (t: string)
    ensures forall i :: 0 <= i < |t| ==> IsWordChar(t[i])
  {
    match k
    case Protocol => "PROTOCOL_VERSION"
    case Hostname => "HOSTNAME"
    case TransferId => "TRANSFER_ID"
    case Code => "CODE"
    case SendSize => "SEND_SIZE"
    case RecvSize => "RECV_SIZE"
    case ModelName => "MODEL_NAME"
    case ModelSeed => "MODEL_SEED"
    case ModelMode => "MODEL_MODE"
    case ModelPath => "MODEL_PATH"
    case ModelSize => "MODEL_SIZE"
    case Unknown => ""
  }

  function KeyOf(s: string): Key {
    if CaseEq(s, KeyText(Protocol)) then Protocol
    else if CaseEq(s, KeyText(Hostname)) then Hostname
    else if CaseEq(s, KeyText(TransferId)) then TransferId
    else if CaseEq(s, KeyText(Code)) then Code
    else if CaseEq(s, KeyText(SendSize)) then SendSize
    else if CaseEq(s, KeyText(RecvSize)) then RecvSize
    else if CaseEq(s, KeyText(ModelName)) then ModelName
    else if CaseEq(s, KeyText(ModelSeed)) then ModelSeed
    else if CaseEq(s, KeyText(ModelMode)) then ModelMode
    else if CaseEq(s, KeyText(ModelPath)) then ModelPath
    else if CaseEq(s, KeyText(ModelSize)) then ModelSize
    else Unknown
  }

  /** What parsing a header may change in the stream. */
  datatype Info = Info(
    id: Option<string>,
    peerHost: Option<string>,
    sizes: Sizes,
    modelName: string,
    modelSeed: nat,
    modelSize: nat)

  datatype Scan = Scan(
    info: Info,
    seen: set<Key>,
    error: StreamError,
    pathMode: bool,
    path: Option<string>,
    code: Option<string>)

  function StartScan(info: Info): Scan {
    Scan(info, {}, NoError, false, None, None)
  }

  /** The protocol version is accepted when it has a dot and its major part reads as 2. */
  function ApplyVersion(s: Scan, value: string): Scan {
    var dot := Find(value, '.');
    if dot == |value| then s
    else if ToInt32(StrToL(value[..dot])) == 2 then s.(seen := s.seen + {Protocol})
    else s.(error := HeaderVersion)
  }

  predicate IsTilde(value: string) {
    value != "" && value[0] == '~'
  }

  function Apply(s: Scan, commander: bool, key: Key, value: string): Scan {
    var t := s.(seen := s.seen + {key});
    match key
    case Protocol => ApplyVersion(s, value)
    case Hostname => t.(info := s.info.(peerHost := Some(value)))
    case TransferId =>
      if commander then t
      else if s.info.id.Some? then t.(info := s.info.(id := Some(s.info.id.value + ":" + value)))
      else t.(info := s.info.(id := Some(value)))
    case Code => t.(code := Some(value))
    case SendSize =>
      var z := s.info.sizes;
      t.(info := s.info.(sizes := if IsTilde(value) then z.(recv := 0, recvZero := true) else z.(recv := StrToULL(value))))
    case RecvSize =>
      var z := s.info.sizes;
      t.(info := s.info.(sizes := if IsTilde(value) then z.(send := 0, sendZero := true) else z.(send := StrToULL(value))))
    case ModelName => t.(info := s.info.(modelName := value))
    case ModelSeed => t.(info := s.info.(modelSeed := ToUInt32(StrToL(value))))
    case ModelMode =>
      if CaseEqN(value, "path", 4) then t.(pathMode := true)
      else if CaseEqN(value, "graphml", 4) then t.(pathMode := false)
      else t.(error := HeaderModelMode)
    case ModelPath => t.(path := Some(value))
    case ModelSize =>
      var n := StrToL(value);
      if 0 < n <= TEN_MIB then t.(info := s.info.(modelSize := n)) else s.(error := HeaderModelSize)
    case Unknown => s
  }

  /** One space-separated piece; a piece without '=' is ignored, and so is everything after an
      error. */
  function ApplyField(s: Scan, commander: bool, field: string): Scan {
    var eq := Find(field, '=');
    if s.error != NoError || eq == |field| then s
    else Apply(s, commander, KeyOf(field[..eq]), field[eq + 1..])
  }

  function ApplyFields(s: Scan, commander: bool, fields: seq<string>): Scan {
    if fields == [] then s
    else ApplyField(ApplyFields(s, commander, fields[..|fields| - 1]), commander, fields[|fields| - 1])
  }

  const COMMANDER_REQUIRES: set<Key> := {Protocol, Hostname, Code}
  const SERVER_REQUIRES: set<Key> := {Protocol, Hostname, TransferId, SendSize, RecvSize, ModelName, ModelSeed, ModelMode}

  function LoadPath(env: Env, s: Scan): Option<Markov.Model> {
    if s.path.None? || CaseEq(s.path.value, env.internalName) then env.fromText(env.internalText, s.info.modelSeed)
    else env.fromPath(s.path.value, s.info.modelSeed)
  }

  /** The verdict on a parsed header, and the model when it was loaded from a path. */
  function Conclude(env: Env, s: Scan, commander: bool): (StreamError, Option<Markov.Model>) {
    if s.error != NoError then (s.error, None)
    else if commander then
      var e := if COMMANDER_REQUIRES <= s.seen then NoError else HeaderIncomplete;
      (if s.code.Some? && !CaseEq(s.code.value, ErrorText(NoError)) then BadHeader else e, None)
    else
      var required := SERVER_REQUIRES + {if s.pathMode then ModelPath else ModelSize};
      var e := if required <= s.seen then NoError else HeaderIncomplete;
      if s.pathMode then
        var m := LoadPath(env, s);
        (if m.None? then HeaderModelPath else e, m)
      else (if s.info.modelSize == 0 then HeaderModelSize else e, None)
  }

  // ---- Writing ----

  function Field(k: Key, value: string): string {
    KeyText(k) + "=" + value
  }

  function SizeText(n: nat, zero: bool): string {
    if zero then "~" else Print(n)
  }

  /** What a commander announces. With `path` the model is sent by path, otherwise as `text`. */
  datatype Offer = Offer(
    host: string,
    id: string,
    sizes: Sizes,
    modelName: string,
    modelSeed: nat,
    path: Option<string>,
    text: string)

  datatype Pair = Pair(key: Key, value: string)

  function Render(pairs: seq<Pair>): (fields: seq<string>)
    ensures |fields| == |pairs|
    ensures forall i :: 0 <= i < |pairs| ==> fields[i] == Field(pairs[i].key, pairs[i].value)
  {
    seq(|pairs|, i requires 0 <= i < |pairs| => Field(pairs[i].key, pairs[i].value))
  }

  function NamePairs(o: Offer): seq<Pair> {
    [Pair(Protocol, "2.0"), Pair(Hostname, o.host), Pair(TransferId, o.id)]
  }

  function SizePairs(o: Offer): seq<Pair> {
    NamePairs(o) + [Pair(SendSize, SizeText(o.sizes.send, o.sizes.sendZero)),
                    Pair(RecvSize, SizeText(o.sizes.recv, o.sizes.recvZero))]
  }

  function ModelPairs(o: Offer): seq<Pair> {
    SizePairs(o) + [Pair(ModelName, o.modelName), Pair(ModelSeed, Print(o.modelSeed))]
  }

  function CommandPairs(o: Offer): seq<Pair> {
    ModelPairs(o) +
    if o.path.Some? then [Pair(ModelMode, "path"), Pair(ModelPath, o.path.value)]
    else [Pair(ModelMode, "graphml"), Pair(ModelSize, Print(|o.text|))]
  }

  function Line(pairs: seq<Pair>): string {
    Join(Render(pairs), ' ')
  }

  function Blob(o: Offer): string {
    if o.path.Some? then "" else o.text
  }

  function CommandText(o: Offer): string {
    PASSWORD + " " + Line(CommandPairs(o)) + "\n" + Blob(o)
  }

  function ResponsePairs(host: string, e: StreamError): seq<Pair> {
    [Pair(Protocol, "2.0"), Pair(Hostname, host), Pair(Code, ErrorText(e))]
  }

  function ResponseText(host: string, e: StreamError): string {
    PASSWORD + " " + Line(ResponsePairs(host, e)) + "\n"
  }

  // ---- Round trip ----

  /** Text that survives as a header value. */
  ghost predicate Clean(s: string) {
    ' ' !in s && NEWLINE !in s && NUL !in s
  }

  ghost predicate OfferOk(o: Offer) {
    Clean(o.host) && Clean(o.id) && Clean(o.modelName) && (o.path.Some? ==> Clean(o.path.value)) &&
    o.sizes.send < UINT64_LIMIT && o.sizes.recv < UINT64_LIMIT && o.modelSeed < UINT32_LIMIT &&
    (o.path.None? ==> 0 < |o.text| <= TEN_MIB && NulFree(o.text))
  }

  ghost predicate PairOk(p: Pair) {
    p.key != Unknown && Clean(p.value)
  }

  lemma FieldClean(p: Pair)
    requires PairOk(p)
    ensures Clean(Field(p.key, p.value))
  {
    var k := KeyText(p.key);
    assert forall i :: 0 <= i < |k| ==> k[i] != ' ' && k[i] != NEWLINE && k[i] != NUL;
  }

  lemma KeyOfText(k: Key)
    requires k != Unknown
    ensures KeyOf(KeyText(k)) == k
  {
    assert KeyText(SendSize)[0] == 'S' && KeyText(RecvSize)[0] == 'R';
    assert KeyText(ModelName)[6] == 'N' && KeyText(ModelSeed)[6] == 'S' && KeyText(ModelMode)[6] == 'M';
    assert KeyText(ModelPath)[6] == 'P' && KeyText(ModelSize)[6] == 'S';
    assert KeyText(ModelSeed)[7] == 'E' && KeyText(ModelSize)[7] == 'I';
  }

  function ApplyPair(s: Scan, commander: bool, p: Pair): Scan {
    if s.error != NoError then s else Apply(s, commander, p.key, p.value)
  }

  function ApplyPairs(s: Scan, commander: bool, pairs: seq<Pair>): Scan {
    if pairs == [] then s
    else ApplyPair(ApplyPairs(s, commander, pairs[..|pairs| - 1]), commander, pairs[|pairs| - 1])
  }

  lemma ApplyOwnField(s: Scan, commander: bool, p: Pair)
    requires p.key != Unknown
    ensures ApplyField(s, commander, Field(p.key, p.value)) == ApplyPair(s, commander, p)
  {
    var k, f := KeyText(p.key), Field(p.key, p.value);
    KeyOfText(p.key);
    assert f == k + ['='] + p.value;
    assert '=' !in k;
    FindUnique(k, '=', p.value);
    assert f[..|k|] == k && f[|k| + 1..] == p.value;
  }

  lemma {:induction false} RenderApplies(s: Scan, commander: bool, pairs: seq<Pair>)
    requires forall i :: 0 <= i < |pairs| ==> PairOk(pairs[i])
    ensures ApplyFields(s, commander, Render(pairs)) == ApplyPairs(s, commander, pairs)
  {
    if pairs != [] {
      var n := |pairs| - 1;
      RenderApplies(s, commander, pairs[..n]);
      assert Render(pairs)[..n] == Render(pairs[..n]);
      ApplyOwnField(ApplyPairs(s, commander, pairs[..n]), commander, pairs[n]);
    }
  }

  /** A rendered line holds no line end, and splitting it gives its fields back. */
  lemma LineSplits(pairs: seq<Pair>)
    requires |pairs| > 0 && forall i :: 0 <= i < |pairs| ==> PairOk(pairs[i])
    ensures NEWLINE !in Line(pairs) && NUL !in Line(pairs)
    ensures Split(CString(Line(pairs)), ' ') == Render(pairs)
  {
    var f := Render(pairs);
    forall i | 0 <= i < |f| ensures Clean(f[i]) {
      FieldClean(pairs[i]);
    }
    SplitJoin(f, ' ');
    JoinAvoids(f, ' ', NEWLINE);
    JoinAvoids(f, ' ', NUL);
    assert Fields("", ' ') == [""];
    assert f[0] != "";
  }

  lemma VersionTwo(s: Scan)
    ensures ApplyVersion(s, "2.0") == s.(seen := s.seen + {Protocol})
  {
    FindUnique("2", '.', "0");
    assert "2.0" == "2" + ['.'] + "0";
    PrintReads(2);
    assert Print(2) == ['2'];
    assert "2.0"[..1] == Print(2);
  }

  lemma SizeReads(n: nat, zero: bool)
    requires n < UINT64_LIMIT
    ensures IsTilde(SizeText(n, zero)) <==> zero
    ensures !zero ==> StrToULL(SizeText(n, zero)) == n
    ensures Clean(SizeText(n, zero))
  {
    PrintReads(n);
    assert !zero ==> IsDigit(Print(n)[0]);
  }

  lemma PrintClean(n: nat)
    ensures Clean(Print(n))
  {
    assert forall i :: 0 <= i < |Print(n)| ==> IsDigit(Print(n)[i]);
  }

  lemma PairsSnoc(s: Scan, commander: bool, pairs: seq<Pair>, p: Pair)
    ensures ApplyPairs(s, commander, pairs + [p]) == ApplyPair(ApplyPairs(s, commander, pairs), commander, p)
  {
    hide ApplyPair;
    assert (pairs + [p])[..|pairs|] == pairs;
  }

  lemma PairsSnoc2(s: Scan, commander: bool, pairs: seq<Pair>, p: Pair, q: Pair)
    ensures ApplyPairs(s, commander, pairs + [p, q]) ==
            ApplyPair(ApplyPair(ApplyPairs(s, commander, pairs), commander, p), commander, q)
  {
    hide ApplyPair, ApplyPairs;
    PairsSnoc(s, commander, pairs, p);
    PairsSnoc(s, commander, pairs + [p], q);
    assert pairs + [p, q] == pairs + [p] + [q];
  }

  function NameScan(info: Info, o: Offer): Scan {
    StartScan(info.(id := Some(if info.id.Some? then info.id.value + ":" + o.id else o.id), peerHost := Some(o.host)))
      .(seen := {Protocol, Hostname, TransferId})
  }

  /** The sizes a server ends up with: the directions swapped, zero requests kept. */
  function AgreedSizes(z: Sizes, o: Sizes): Sizes {
    Sizes(if o.recvZero then 0 else o.recv, z.sendZero || o.recvZero,
          if o.sendZero then 0 else o.send, z.recvZero || o.sendZero)
  }

  function SizeScan(info: Info, o: Offer): Scan {
    var s := NameScan(info, o);
    s.(seen := s.seen + {SendSize, RecvSize}, info := s.info.(sizes := AgreedSizes(info.sizes, o.sizes)))
  }

  function ModelScan(info: Info, o: Offer): Scan {
    var s := SizeScan(info, o);
    s.(seen := s.seen + {ModelName, ModelSeed}, info := s.info.(modelName := o.modelName, modelSeed := o.modelSeed))
  }

  /** The parse of a whole command. */
  function CommandScan(info: Info, o: Offer): Scan {
    var s := ModelScan(info, o);
    if o.path.Some? then s.(seen := s.seen + {ModelMode, ModelPath}, pathMode := true, path := o.path)
    else s.(seen := s.seen + {ModelMode, ModelSize}, info := s.info.(modelSize := |o.text|))
  }

  lemma NamesParse(info: Info, o: Offer)
    ensures ApplyPairs(StartScan(info), false, NamePairs(o)) == NameScan(info, o)
  {
    var s := StartScan(info);
    var p := NamePairs(o);
    VersionTwo(s);
    PairsSnoc(s, false, [], p[0]);
    PairsSnoc2(s, false, [] + [p[0]], p[1], p[2]);
    assert p == [] + [p[0]] + [p[1], p[2]];
  }

  lemma SizesParse(info: Info, o: Offer)
    requires OfferOk(o)
    ensures ApplyPairs(StartScan(info), false, SizePairs(o)) == SizeScan(info, o)
  {
    NamesParse(info, o);
    SizeReads(o.sizes.send, o.sizes.sendZero);
    SizeReads(o.sizes.recv, o.sizes.recvZero);
    PairsSnoc2(StartScan(info), false, NamePairs(o), SizePairs(o)[3], SizePairs(o)[4]);
  }

  lemma ModelParses(info: Info, o: Offer)
    requires OfferOk(o)
    ensures ApplyPairs(StartScan(info), false, ModelPairs(o)) == ModelScan(info, o)
  {
    hide SizePairs, SizeText;
    SizesParse(info, o);
    PrintReads(o.modelSeed);
    PairsSnoc2(StartScan(info), false, SizePairs(o), Pair(ModelName, o.modelName), Pair(ModelSeed, Print(o.modelSeed)));
  }

  lemma ModesApply(s: Scan)
    ensures Apply(s, false, ModelMode, "path") == s.(seen := s.seen + {ModelMode}, pathMode := true)
    ensures Apply(s, false, ModelMode, "graphml") == s.(seen := s.seen + {ModelMode}, pathMode := false)
  {
    assert !CaseEqN("graphml", "path", 4) by { assert Take("graphml", 4)[0] == 'g' && Take("path", 4)[0] == 'p'; }
  }

  lemma PathParses(s: Scan, path: string)
    requires s.error == NoError
    ensures ApplyPair(ApplyPair(s, false, Pair(ModelMode, "path")), false, Pair(ModelPath, path)) ==
            s.(seen := s.seen + {ModelMode, ModelPath}, pathMode := true, path := Some(path))
  {
    ModesApply(s);
    assert s.seen + {ModelMode} + {ModelPath} == s.seen + {ModelMode, ModelPath};
  }

  lemma TextParses(s: Scan, n: nat)
    requires s.error == NoError && 0 < n <= TEN_MIB
    ensures ApplyPair(ApplyPair(s, false, Pair(ModelMode, "graphml")), false, Pair(ModelSize, Print(n))) ==
            s.(seen := s.seen + {ModelMode, ModelSize}, pathMode := false, info := s.info.(modelSize := n))
  {
    ModesApply(s);
    PrintReads(n);
    assert s.seen + {ModelMode} + {ModelSize} == s.seen + {ModelMode, ModelSize};
  }

  lemma CommandParses(info: Info, o: Offer)
    requires OfferOk(o)
    ensures ApplyPairs(StartScan(info), false, CommandPairs(o)) == CommandScan(info, o)
  {
    ModelParses(info, o);
    if o.path.Some? {
      PathParses(ModelScan(info, o), o.path.value);
      PairsSnoc2(StartScan(info), false, ModelPairs(o), Pair(ModelMode, "path"), Pair(ModelPath, o.path.value));
    } else {
      TextParses(ModelScan(info, o), |o.text|);
      PairsSnoc2(StartScan(info), false, ModelPairs(o), Pair(ModelMode, "graphml"), Pair(ModelSize, Print(|o.text|)));
    }
  }

  lemma CommandPairsOk(o: Offer)
    requires OfferOk(o)
    ensures forall i :: 0 <= i < |CommandPairs(o)| ==> PairOk(CommandPairs(o)[i])
  {
    hide SizeText, IsDigit;
    SizeReads(o.sizes.send, o.sizes.sendZero);
    SizeReads(o.sizes.recv, o.sizes.recvZero);
    PrintClean(o.modelSeed);
    PrintClean(|o.text|);
  }

  /** The parse of a rendered command recovers every announced value, with the sizes swapped. */
  lemma CommandRoundTrip(info: Info, o: Offer)
    requires OfferOk(o)
    ensures NEWLINE !in Line(CommandPairs(o)) && NUL !in Line(CommandPairs(o))
    ensures ApplyFields(StartScan(info), false, Split(CString(Line(CommandPairs(o))), ' ')) == CommandScan(info, o)
  {
    CommandPairsOk(o);
    LineSplits(CommandPairs(o));
    RenderApplies(StartScan(info), false, CommandPairs(o));
    CommandParses(info, o);
  }

  /** The verdict on a parsed command: accepted, with the model loaded already in path mode. */
  lemma CommandAccepted(env: Env, info: Info, o: Offer)
    requires OfferOk(o)
    requires o.path.Some? ==> LoadPath(env, CommandScan(info, o)).Some?
    ensures Conclude(env, CommandScan(info, o), false) ==
            (NoError, if o.path.Some? then LoadPath(env, CommandScan(info, o)) else None)
  {
    var s := CommandScan(info, o);
    assert s.seen == SERVER_REQUIRES + {if o.path.Some? then ModelPath else ModelSize};
  }

  /** A field that gives a value for a key. */
  predicate Gives(field: string, k: Key) {
    var eq := Find(field, '=');
    eq < |field| && KeyOf(field[..eq]) == k
  }

  lemma FieldSeen(s: Scan, commander: bool, field: string, k: Key)
    requires k in ApplyField(s, commander, field).seen
    ensures k in s.seen || Gives(field, k)
  {
    hide KeyOf, StrToL, StrToULL, CaseEqN, ToUInt32, ToInt32;
  }

  /** Only keys that occur in the line count as seen. */
  lemma {:induction false} SeenAreGiven(info: Info, commander: bool, fields: seq<string>, k: Key)
    requires k in ApplyFields(StartScan(info), commander, fields).seen
    ensures exists i :: 0 <= i < |fields| && Gives(fields[i], k)
  {
    hide ApplyField, Gives;
    var n := |fields| - 1;
    FieldSeen(ApplyFields(StartScan(info), commander, fields[..n]), commander, fields[n], k);
    if !Gives(fields[n], k) {
      SeenAreGiven(info, commander, fields[..n], k);
      var i :| 0 <= i < n && Gives(fields[..n][i], k);
      assert Gives(fields[i], k);
    }
  }

  /** A command is accepted only if its line gives every required key, a path or a size of the model
      included; a response only if it gives its three keys. */
  lemma AcceptedGivesAll(env: Env, info: Info, commander: bool, fields: seq<string>, k: Key)
    requires Conclude(env, ApplyFields(StartScan(info), commander, fields), commander).0 == NoError
    requires k in if commander then COMMANDER_REQUIRES else SERVER_REQUIRES
    ensures exists i :: 0 <= i < |fields| && Gives(fields[i], k)
    ensures !commander ==> exists i :: 0 <= i < |fields| && (Gives(fields[i], ModelPath) || Gives(fields[i], ModelSize))
  {
    hide ApplyFields, Gives;
    var s := ApplyFields(StartScan(info), commander, fields);
    SeenAreGiven(info, commander, fields, k);
    if !commander {
      SeenAreGiven(info, commander, fields, if s.pathMode then ModelPath else ModelSize);
    }
  }

  /** Sizes with a zero flag are zero, as the constructor makes them. */
  ghost predicate SizesOk(z: Sizes) {
    (z.sendZero ==> z.send == 0) && (z.recvZero ==> z.recv == 0)
  }

  lemma SizesSwapped(z: Sizes, o: Sizes)
    requires !z.sendZero && !z.recvZero && SizesOk(o)
    ensures AgreedSizes(z, o) == Swap(o) && AgreedSizes(z, Swap(o)) == o
  {
  }

  function ResponseScan(info: Info, host: string, e: StreamError): Scan {
    StartScan(info.(peerHost := Some(host))).(seen := COMMANDER_REQUIRES, code := Some(ErrorText(e)))
  }

  lemma ErrorTextClean(e: StreamError)
    ensures Clean(ErrorText(e))
  {
  }

  lemma OnlyNoErrorSaysNone(e: StreamError)
    ensures CaseEq(ErrorText(e), "NONE") <==> e == NoError
  {
    assert ErrorText(BadAuth)[0] == 'A' && "NONE"[0] == 'N' && ErrorText(ReadError)[0] == 'R' && ErrorText(MiscError)[0] == 'M';
  }

  lemma ResponseParses(info: Info, host: string, e: StreamError)
    ensures ApplyPairs(StartScan(info), true, ResponsePairs(host, e)) == ResponseScan(info, host, e)
  {
    var s := StartScan(info);
    var p := ResponsePairs(host, e);
    VersionTwo(s);
    PairsSnoc(s, true, [], p[0]);
    PairsSnoc2(s, true, [] + [p[0]], p[1], p[2]);
    assert p == [] + [p[0]] + [p[1], p[2]];
  }

  /** The response parses without touching the sizes; the commander accepts it exactly when its
      code says no error. */
  lemma ResponseAccepted(env: Env, info: Info, host: string, e: StreamError)
    requires Clean(host)
    ensures NEWLINE !in Line(ResponsePairs(host, e)) && NUL !in Line(ResponsePairs(host, e))
    ensures ApplyFields(StartScan(info), true, Split(CString(Line(ResponsePairs(host, e))), ' ')) == ResponseScan(info, host, e)
    ensures Conclude(env, ResponseScan(info, host, e), true) == (if e == NoError then NoError else BadHeader, None)
  {
    hide ApplyFields, ApplyPairs, Split, Line, Render, Field;
    var p := ResponsePairs(host, e);
    ErrorTextClean(e);
    LineSplits(p);
    RenderApplies(StartScan(info), true, p);
    ResponseParses(info, host, e);
    OnlyNoErrorSaysNone(e);
  }

  // ---- On the wire ----

  /** The names of the keys, each with its equality sign. */
  function Tag(k: Key): string {
    match k
    case Protocol => "PROTOCOL_VERSION="
    case Hostname => "HOSTNAME="
    case TransferId => "TRANSFER_ID="
    case Code => "CODE="
    case SendSize => "SEND_SIZE="
    case RecvSize => "RECV_SIZE="
    case ModelName => "MODEL_NAME="
    case ModelSeed => "MODEL_SEED="
    case ModelMode => "MODEL_MODE="
    case ModelPath => "MODEL_PATH="
    case ModelSize => "MODEL_SIZE="
    case Unknown => "="
  }

  lemma Tagged(k: Key, value: string)
    ensures Field(k, value) == Tag(k) + value
  {
    assert KeyText(k) + "=" == Tag(k);
  }

  lemma TaggedAll(pairs: seq<Pair>, fields: seq<string>)
    requires |fields| == |pairs| && forall i :: 0 <= i < |pairs| ==> fields[i] == Tag(pairs[i].key) + pairs[i].value
    ensures Render(pairs) == fields
  {
    hide Field, Tag;
    forall i | 0 <= i < |pairs| ensures Render(pairs)[i] == fields[i] {
      Tagged(pairs[i].key, pairs[i].value);
    }
  }

  function CommandFields(o: Offer): seq<string> {
    ["PROTOCOL_VERSION=2.0", "HOSTNAME=" + o.host, "TRANSFER_ID=" + o.id,
     "SEND_SIZE=" + (if o.sizes.sendZero then "~" else Print(o.sizes.send)),
     "RECV_SIZE=" + (if o.sizes.recvZero then "~" else Print(o.sizes.recv)),
     "MODEL_NAME=" + o.modelName, "MODEL_SEED=" + Print(o.modelSeed)] +
    if o.path.Some? then ["MODEL_MODE=path", "MODEL_PATH=" + o.path.value]
    else ["MODEL_MODE=graphml", "MODEL_SIZE=" + Print(|o.text|)]
  }

  /** A command as it goes out: the token, the fields, and the text of the model if it is not named by a
      path. */
  lemma CommandFormat(o: Offer)
    ensures CommandText(o) ==
            "T8nNx9L95LATtckJkR5n" + " " + Join(CommandFields(o), ' ') + "\n" + if o.path.Some? then "" else o.text
  {
    hide Print, Join, Render;
    var p, f := CommandPairs(o), CommandFields(o);
    assert "PROTOCOL_VERSION=" + "2.0" == "PROTOCOL_VERSION=2.0";
    assert "MODEL_MODE=" + "path" == "MODEL_MODE=path" && "MODEL_MODE=" + "graphml" == "MODEL_MODE=graphml";
    forall i | 0 <= i < |p| ensures f[i] == Tag(p[i].key) + p[i].value {
    }
    TaggedAll(p, f);
  }

  /** A response as it goes out. */
  lemma ResponseFormat(host: string, e: StreamError)
    ensures var fields := ["PROTOCOL_VERSION=2.0", "HOSTNAME=" + host, "CODE=" + ErrorText(e)];
            ResponseText(host, e) == "T8nNx9L95LATtckJkR5n" + " " + Join(fields, ' ') + "\n"
  {
    hide ErrorText, Join, Render;
    var fields := ["PROTOCOL_VERSION=2.0", "HOSTNAME=" + host, "CODE=" + ErrorText(e)];
    assert "PROTOCOL_VERSION=" + "2.0" == "PROTOCOL_VERSION=2.0";
    TaggedAll(ResponsePairs(host, e), fields);
  }

  /** Different errors have different codes. */
  lemma ErrorTextsDiffer(e: StreamError, f: StreamError)
    requires ErrorText(e) == ErrorText(f)
    ensures e == f
  {
    var t := ErrorText(e);
    assert |t| == |ErrorText(f)|;
    assert t != "" && t[0] == ErrorText(f)[0];
    assert |t| > 4 ==> t[4] == ErrorText(f)[4];
    assert |t| > 12 ==> t[12] == ErrorText(f)[12];
  }
}
