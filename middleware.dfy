/** Request-attribute extraction (pkg/proxy/middleware/context.go): the per-request
    attribute map built by InitialCtx from the X-ApiKeys and cache-control headers,
    extended in place by the route stages and read by the accessors. */
module Middleware {
  import opened Wrappers
  import opened Faults
  import opened GoStrings

  /** The request's map[string]string. */
  type Attributes = map<string, string>

  /** The attribute names the stages write and the accessors read. */
  datatype AttrName =
    | AccessKey | SecretKey | SkipOnHit | WriteOnReturn
    | ExportUUID | ChunkID | ScannerID | GroupID | AgentID | Offset | Limit
  {
    /** The map key the Go code uses for this attribute. */
    function Key(): string
    {
      match this
      case AccessKey => "AccessKey"
      case SecretKey => "SecretKey"
      case SkipOnHit => "SkipOnHit"
      case WriteOnReturn => "WriteOnReturn"
      case ExportUUID => "ExportUUID"
      case ChunkID => "ChunkID"
      case ScannerID => "ScannerID"
      case GroupID => "GroupID"
      case AgentID => "AgentID"
      case Offset => "Offset"
      case Limit => "Limit"
    }
  }

  /** The process-wide defaults of the two cache-control flags
      (DefaultCacheSkipOnHit, DefaultWriteOnReturn), passed in instead of read from globals. */
  datatype CacheDefaults = CacheDefaults(skipOnHit: bool, writeOnReturn: bool)

  /** The defaults the Go package starts with. */
  const InitialDefaults := CacheDefaults(true, true)

  /** fmt.Sprintf("%v", b) for a bool. */
  function FormatBool(b: bool): string
  {
    if b then "true" else "false"
  }

  /** A header or query value, or `fallback` when it is empty. */
  function OrDefault(value: string, fallback: string): string
  {
    if value == "" then fallback else value
  }

  /** Indexing a Go map: the zero value "" for a missing key. */
  function Lookup(m: Attributes, key: string): string
  {
    if key in m then m[key] else ""
  }

  // ---------------------------------------------------------------------------
  // X-ApiKeys parsing

  /** The two credentials X-ApiKeys carries. */
  datatype Credential = Access | Secret
  {
    /** The attribute the credential is stored under. */
    function Attr(): AttrName
    {
      match this
      case Access => AccessKey
      case Secret => SecretKey
    }
  }

  /** The credential a key names: the key lower-cased, compared with "accesskey" and
      then with "secretkey". */
  function KeyRole(key: string): Option<Credential>
  {
    var lower := ToLower(key);
    if lower == "accesskey" then Some(Access)
    else if lower == "secretkey" then Some(Secret)
    else None
  }

  /** A `;`-segment of X-ApiKeys as the loop sees it: its text, its `=`-pieces and the
      credential its first piece names. */
  datatype Segment = Segment(text: string, keys: seq<string>, role: Option<Credential>)

  /** The loop's view of one segment: keys := strings.Split(segment, "="), and the role
      of keys[0]. */
  function ParseSegment(text: string): Segment
  {
    var keys := Split(text, '=');
    Segment(text, keys, KeyRole(keys[0]))
  }

  /** The texts of a list of segments. */
  function Texts(segments: seq<Segment>): seq<string>
  {
    seq(|segments|, i requires 0 <= i < |segments| => segments[i].text)
  }

  /** The segments of an X-ApiKeys header, in order. */
  function Segments(apiKeys: string): seq<Segment>
  {
    var xs := Split(apiKeys, ';');
    seq(|xs|, i requires 0 <= i < |xs| => ParseSegment(xs[i]))
  }

  /** No part of the header is lost or reordered: no segment's text contains ';', and
      the texts joined with ';' give back X-ApiKeys. */
  lemma SegmentsRoundTrip(apiKeys: string)
    ensures forall i :: 0 <= i < |Segments(apiKeys)| ==> ';' !in Segments(apiKeys)[i].text
    ensures Join(Texts(Segments(apiKeys)), ';') == apiKeys
  {
    assert Texts(Segments(apiKeys)) == Split(apiKeys, ';');
  }

  /** The segments are the parsed `;`-pieces, one for one. */
  lemma SegmentsPieces(apiKeys: string)
    ensures |Segments(apiKeys)| == |Split(apiKeys, ';')|
    ensures forall i :: 0 <= i < |Split(apiKeys, ';')| ==> Segments(apiKeys)[i] == ParseSegment(Split(apiKeys, ';')[i])
  {
  }

  /** A segment that names a credential but has no '=': reading keys[1] faults. */
  predicate Faulty(segment: Segment)
  {
    segment.role.Some? && |segment.keys| < 2
  }

  /** One iteration of InitialCtx's loop: store the second `=`-piece under the named
      credential, fault when there is none, ignore a segment that names no credential. */
  function ApplySegment(m: Attributes, segment: Segment): Result<Attributes, Fault>
  {
    match segment.role
    case None => Success(m)
    case Some(c) =>
      if |segment.keys| < 2 then Failure(MissingValue(segment.text))
      else Success(m[c.Attr().Key() := segment.keys[1]])
  }

  /** A segment `key=value=tail` sets the credential `key` names to `value`: the text
      after a second '=' is dropped; a key naming no credential leaves the map alone. */
  lemma SecondPieceKept(m: Attributes, key: string, value: string, tail: string)
    requires '=' !in key && '=' !in value
    ensures ApplySegment(m, ParseSegment(key + "=" + value + "=" + tail)) ==
              match KeyRole(key)
              case None => Success(m)
              case Some(c) => Success(m[c.Attr().Key() := value])
  {
    var rest := Split(tail, '=');
    var parts := [key, value] + rest;
    assert parts[1..] == [value] + rest && ([value] + rest)[1..] == rest;
    assert Join(parts, '=') == key + "=" + value + "=" + tail;
    SplitJoin(parts, '=');
  }

  /** A segment that is a bare key naming a credential, with no '=' at all, faults. */
  lemma BareKeyFaults(m: Attributes, key: string)
    requires '=' !in key && KeyRole(key).Some?
    ensures ApplySegment(m, ParseSegment(key)) == Failure(MissingValue(key))
  {
    SplitJoin([key], '=');
  }

  /** The loop of InitialCtx over the segments, in order, starting from an empty map;
      the first faulting segment stops it. */
  function ParseApiKeys(segments: seq<Segment>): Result<Attributes, Fault>
    decreases |segments|
  {
    if segments == [] then Success(map[])
    else
      match ParseApiKeys(segments[..|segments| - 1])
      case Failure(e) => Failure(e)
      case Success(m) => ApplySegment(m, segments[|segments| - 1])
  }

  /** The index of the last segment that names `name`, if there is one. */
  function LastMatch(segments: seq<Segment>, c: Credential): (r: Option<nat>)
    ensures r.Some? ==> r.value < |segments| && segments[r.value].role == Some(c)
    ensures r.Some? ==> forall j :: r.value < j < |segments| ==> segments[j].role != Some(c)
    ensures r.None? ==> forall j :: 0 <= j < |segments| ==> segments[j].role != Some(c)
    decreases |segments|
  {
    if segments == [] then None
    else if segments[|segments| - 1].role == Some(c) then Some(|segments| - 1)
    else LastMatch(segments[..|segments| - 1], c)
  }

  /** The entry for one credential: the second `=`-piece of its last segment. */
  function CredentialEntry(segments: seq<Segment>, c: Credential): Attributes
    requires forall i :: 0 <= i < |segments| ==> !Faulty(segments[i])
  {
    match LastMatch(segments, c)
    case None => map[]
    case Some(i) =>
      assert !Faulty(segments[i]);
      map[c.Attr().Key() := segments[i].keys[1]]
  }

  /** Reference definition of the credentials X-ApiKeys yields, built from the last
      matching segment of each credential rather than by replaying the loop. */
  function Credentials(segments: seq<Segment>): Attributes
    requires forall i :: 0 <= i < |segments| ==> !Faulty(segments[i])
  {
    CredentialEntry(segments, Access) + CredentialEntry(segments, Secret)
  }

  /** A fault at a prefix is the fault of the whole list: the loop never resumes. */
  lemma {:induction false} ParsePrefixFailure(segments: seq<Segment>, k: nat)
    requires k <= |segments|
    requires ParseApiKeys(segments[..k]).Failure?
    ensures ParseApiKeys(segments) == ParseApiKeys(segments[..k])
    decreases |segments|
  {
    if k < |segments| {
      var init := segments[..|segments| - 1];
      assert init[..k] == segments[..k];
      ParsePrefixFailure(init, k);
    } else {
      assert segments[..k] == segments;
    }
  }

  /** One more iteration of the loop: the prefix one segment longer parses to that
      segment applied to the shorter prefix's map. */
  lemma ParseStep(segments: seq<Segment>, x: nat, m: Attributes)
    requires x < |segments| && ParseApiKeys(segments[..x]) == Success(m)
    ensures ParseApiKeys(segments[..x + 1]) == ApplySegment(m, segments[x])
  {
    assert segments[..x + 1][..x] == segments[..x];
  }

  /** Parsing faults exactly when some segment names a credential without a value, and
      the fault reports the first such segment. */
  lemma {:induction false} ParseApiKeysFault(segments: seq<Segment>)
    ensures ParseApiKeys(segments).Failure? <==> exists i :: 0 <= i < |segments| && Faulty(segments[i])
    ensures ParseApiKeys(segments).Failure? ==>
              exists i :: 0 <= i < |segments| && Faulty(segments[i]) &&
                (forall j :: 0 <= j < i ==> !Faulty(segments[j])) &&
                ParseApiKeys(segments).error == MissingValue(segments[i].text)
    decreases |segments|
  {
    if segments != [] {
      var n := |segments| - 1;
      var init := segments[..n];
      ParseApiKeysFault(init);
      assert forall j :: 0 <= j < n ==> init[j] == segments[j];
      match ParseApiKeys(init)
      case Failure(e) =>
        var i :| 0 <= i < |init| && Faulty(init[i]) && (forall j :: 0 <= j < i ==> !Faulty(init[j])) &&
                 e == MissingValue(init[i].text);
        assert Faulty(segments[i]);
      case Success(m) =>
        assert forall j :: 0 <= j < n ==> !Faulty(segments[j]);
        if !Faulty(segments[n]) {
          assert forall j :: 0 <= j < |segments| ==> !Faulty(segments[j]) by {
            forall j | 0 <= j < |segments| ensures !Faulty(segments[j]) {
              if j < n { assert !Faulty(init[j]); }
            }
          }
        }
    }
  }

  /** Dropping the last segment keeps every segment free of faults. */
  lemma InitNoFault(segments: seq<Segment>)
    requires segments != []
    requires forall i :: 0 <= i < |segments| ==> !Faulty(segments[i])
    ensures var init := segments[..|segments| - 1];
            forall i :: 0 <= i < |init| ==> !Faulty(init[i])
  {
    var init := segments[..|segments| - 1];
    assert forall i :: 0 <= i < |init| ==> init[i] == segments[i];
  }

  /** The entry of credential `c` after one more segment: that segment's value when it
      names `c`, the earlier entry otherwise. */
  lemma EntryStep(segments: seq<Segment>, c: Credential)
    requires segments != []
    requires forall i :: 0 <= i < |segments| ==> !Faulty(segments[i])
    ensures var n := |segments| - 1;
            var init := segments[..n];
            (forall i :: 0 <= i < |init| ==> !Faulty(init[i])) &&
            CredentialEntry(segments, c) ==
              if segments[n].role == Some(c) then map[c.Attr().Key() := segments[n].keys[1]]
              else CredentialEntry(init, c)
  {
    InitNoFault(segments);
  }

  /** Overwriting one key of a union of two single-key maps overwrites that map's part. */
  lemma OverwriteUnion(a: Attributes, b: Attributes, ka: string, kb: string, v: string)
    requires a.Keys <= {ka} && b.Keys <= {kb} && ka != kb
    ensures map[ka := v] + b == (a + b)[ka := v]
    ensures a + map[kb := v] == (a + b)[kb := v]
  {
  }

  /** How the reference credentials grow by one segment: a segment naming a credential
      overwrites that credential's entry, any other segment changes nothing. */
  lemma CredentialsStep(segments: seq<Segment>)
    requires segments != []
    requires forall i :: 0 <= i < |segments| ==> !Faulty(segments[i])
    ensures var n := |segments| - 1;
            var init := segments[..n];
            (forall i :: 0 <= i < |init| ==> !Faulty(init[i])) &&
            Credentials(segments) ==
              match segments[n].role
              case None => Credentials(init)
              case Some(c) => Credentials(init)[c.Attr().Key() := segments[n].keys[1]]
  {
    var n := |segments| - 1;
    var init := segments[..n];
    EntryStep(segments, Access);
    EntryStep(segments, Secret);
    var a := CredentialEntry(init, Access);
    var b := CredentialEntry(init, Secret);
    if segments[n].role.Some? {
      OverwriteUnion(a, b, "AccessKey", "SecretKey", segments[n].keys[1]);
    }
  }

  /** Replaying the loop gives exactly the reference credentials: for each credential, the
      second `=`-piece of the last segment naming it, and no entry when none does. */
  lemma {:induction false} ParseApiKeysSpec(segments: seq<Segment>)
    requires forall i :: 0 <= i < |segments| ==> !Faulty(segments[i])
    ensures ParseApiKeys(segments) == Success(Credentials(segments))
    decreases |segments|
  {
    if segments != [] {
      var n := |segments| - 1;
      CredentialsStep(segments);
      ParseApiKeysSpec(segments[..n]);
    }
  }

  /** What the reference says of one credential: present exactly when some segment names
      it, and then holding the second `=`-piece of the last such segment. */
  lemma CredentialsLookup(segments: seq<Segment>, c: Credential)
    requires forall i :: 0 <= i < |segments| ==> !Faulty(segments[i])
    ensures c.Attr().Key() in Credentials(segments) <==> LastMatch(segments, c).Some?
    ensures LastMatch(segments, c).Some? ==>
              Credentials(segments)[c.Attr().Key()] == segments[LastMatch(segments, c).value].keys[1]
  {
    var a := CredentialEntry(segments, Access);
    var b := CredentialEntry(segments, Secret);
    assert a.Keys <= {"AccessKey"} && b.Keys <= {"SecretKey"};
  }

  /** A segment that names no credential can be dropped anywhere without changing the
      outcome of parsing. */
  lemma {:induction false} ParseIgnoresUnrecognised(before: seq<Segment>, segment: Segment, after: seq<Segment>)
    requires segment.role.None?
    ensures ParseApiKeys(before + [segment] + after) == ParseApiKeys(before + after)
    decreases |after|
  {
    if after == [] {
      assert (before + [segment] + after)[..|before|] == before;
      assert before + after == before;
    } else {
      var n := |after| - 1;
      ParseIgnoresUnrecognised(before, segment, after[..n]);
      assert (before + [segment] + after)[..|before| + 1 + n] == before + [segment] + after[..n];
      assert (before + after)[..|before| + n] == before + after[..n];
    }
  }

  // ---------------------------------------------------------------------------
  // InitialCtx as a function of its inputs

  /** The map InitialCtx attaches: the credentials, then the two cache-control flags,
      each the header value or, when that is empty, the text of its default. */
  function InitialAttributes(apiKeys: string, skipHeader: string, writeHeader: string,
                             defaults: CacheDefaults): Result<Attributes, Fault>
  {
    match ParseApiKeys(Segments(apiKeys))
    case Failure(e) => Failure(e)
    case Success(m) =>
      Success(m[SkipOnHit.Key() := OrDefault(skipHeader, FormatBool(defaults.skipOnHit))]
               [WriteOnReturn.Key() := OrDefault(writeHeader, FormatBool(defaults.writeOnReturn))])
  }

  /** InitialCtx either faults on the first credential segment without '=' or yields the
      reference credentials plus the two flags. */
  lemma InitialAttributesSpec(apiKeys: string, skipHeader: string, writeHeader: string, defaults: CacheDefaults)
    ensures var segments := Segments(apiKeys);
            match InitialAttributes(apiKeys, skipHeader, writeHeader, defaults)
            case Failure(e) =>
              exists i :: 0 <= i < |segments| && Faulty(segments[i]) &&
                (forall j :: 0 <= j < i ==> !Faulty(segments[j])) && e == MissingValue(segments[i].text)
            case Success(m) =>
              (forall i :: 0 <= i < |segments| ==> !Faulty(segments[i])) &&
              m == Credentials(segments)[SkipOnHit.Key() := OrDefault(skipHeader, FormatBool(defaults.skipOnHit))]
                                        [WriteOnReturn.Key() := OrDefault(writeHeader, FormatBool(defaults.writeOnReturn))]
  {
    var segments := Segments(apiKeys);
    ParseApiKeysFault(segments);
    if ParseApiKeys(segments).Success? {
      ParseApiKeysSpec(segments);
    }
  }

  /** The flags after InitialCtx: the header when it is non-empty, otherwise "true" or
      "false" after the process default. */
  lemma InitialFlags(apiKeys: string, skipHeader: string, writeHeader: string, defaults: CacheDefaults)
    requires InitialAttributes(apiKeys, skipHeader, writeHeader, defaults).Success?
    ensures var m := InitialAttributes(apiKeys, skipHeader, writeHeader, defaults).value;
            && SkipOnHit.Key() in m && WriteOnReturn.Key() in m
            && m[SkipOnHit.Key()] == (if skipHeader != "" then skipHeader
                                      else if defaults.skipOnHit then "true" else "false")
            && m[WriteOnReturn.Key()] == (if writeHeader != "" then writeHeader
                                          else if defaults.writeOnReturn then "true" else "false")
  {
  }

  /** The map InitialCtx builds holds the two flags and at most the two credentials
      besides. */
  lemma InitialDomain(apiKeys: string, skipHeader: string, writeHeader: string, defaults: CacheDefaults)
    requires InitialAttributes(apiKeys, skipHeader, writeHeader, defaults).Success?
    ensures var m := InitialAttributes(apiKeys, skipHeader, writeHeader, defaults).value;
            {SkipOnHit.Key(), WriteOnReturn.Key()} <= m.Keys <=
              {AccessKey.Key(), SecretKey.Key(), SkipOnHit.Key(), WriteOnReturn.Key()}
  {
    InitialAttributesSpec(apiKeys, skipHeader, writeHeader, defaults);
    var segments := Segments(apiKeys);
    var a := CredentialEntry(segments, Access);
    var b := CredentialEntry(segments, Secret);
    assert a.Keys <= {"AccessKey"} && b.Keys <= {"SecretKey"};
  }

  /** A credential after InitialCtx: present exactly when some segment names it, and then
      the second `=`-piece of the last such segment; the accessor reads "" otherwise. */
  lemma InitialCredential(apiKeys: string, skipHeader: string, writeHeader: string,
                          defaults: CacheDefaults, c: Credential)
    requires InitialAttributes(apiKeys, skipHeader, writeHeader, defaults).Success?
    ensures var segments := Segments(apiKeys);
            var m := InitialAttributes(apiKeys, skipHeader, writeHeader, defaults).value;
            && (c.Attr().Key() in m <==> exists i :: 0 <= i < |segments| && segments[i].role == Some(c))
            && match LastMatch(segments, c)
               case None => Lookup(m, c.Attr().Key()) == ""
               case Some(i) => 2 <= |segments[i].keys| && Lookup(m, c.Attr().Key()) == segments[i].keys[1]
  {
    var segments := Segments(apiKeys);
    InitialAttributesSpec(apiKeys, skipHeader, writeHeader, defaults);
    CredentialsLookup(segments, c);
    match LastMatch(segments, c)
    case None =>
    case Some(i) => assert !Faulty(segments[i]);
  }

  /** With neither cache-control header and the package's own defaults, both flags read "true". */
  lemma InitialDefaultFlags(apiKeys: string)
    requires InitialAttributes(apiKeys, "", "", InitialDefaults).Success?
    ensures var m := InitialAttributes(apiKeys, "", "", InitialDefaults).value;
            m[SkipOnHit.Key()] == "true" && m[WriteOnReturn.Key()] == "true"
  {
  }

  // ---------------------------------------------------------------------------
  // Route stages as functions of the map

  /** The map after a stage writes one attribute: that key holds `value`, it is the only
      key added, and every other entry is as before. */
  function WithAttribute(m: Attributes, name: AttrName, value: string): (r: Attributes)
    ensures name.Key() in r && r[name.Key()] == value
    ensures r.Keys == m.Keys + {name.Key()}
    ensures forall k :: k in m && k != name.Key() ==> r[k] == m[k]
  {
    m[name.Key() := value]
  }

  /** The map after ScannersCtx: the scanner identifier verbatim, the offset and limit
      from the query or "0" and "5000" when the query value is empty, nothing else changed. */
  function ScannerAttributes(m: Attributes, scannerId: string, offset: string, limit: string): (r: Attributes)
    ensures r.Keys == m.Keys + {ScannerID.Key(), Offset.Key(), Limit.Key()}
    ensures r[ScannerID.Key()] == scannerId
    ensures r[Offset.Key()] == (if offset == "" then "0" else offset)
    ensures r[Limit.Key()] == (if limit == "" then "5000" else limit)
    ensures forall k :: k in m && k !in {ScannerID.Key(), Offset.Key(), Limit.Key()} ==> r[k] == m[k]
  {
    WithAttribute(WithAttribute(WithAttribute(m, ScannerID, scannerId),
                                Offset, OrDefault(offset, "0")),
                  Limit, OrDefault(limit, "5000"))
  }

  /** InitialCtx's flag statements, written out as in the Go code (store the header, then
      replace an empty value by the default's text), amount to OrDefault on each flag. */
  lemma FlagWrites(m: Attributes, skipHeader: string, writeHeader: string, defaults: CacheDefaults)
    ensures var m1 := m[SkipOnHit.Key() := skipHeader][WriteOnReturn.Key() := writeHeader];
            var m2 := if m1[SkipOnHit.Key()] == "" then m1[SkipOnHit.Key() := FormatBool(defaults.skipOnHit)] else m1;
            var m3 := if m2[WriteOnReturn.Key()] == "" then m2[WriteOnReturn.Key() := FormatBool(defaults.writeOnReturn)] else m2;
            m3 == m[SkipOnHit.Key() := OrDefault(skipHeader, FormatBool(defaults.skipOnHit))]
                   [WriteOnReturn.Key() := OrDefault(writeHeader, FormatBool(defaults.writeOnReturn))]
  {
  }

  // ---------------------------------------------------------------------------
  // The request's context

  /** The part of an http.Request's context the middleware uses: the attribute map
      stored under ContextMapKey, shared by every stage of the request. */
  class RequestContext {
    /** None until InitialCtx has attached a map. */
    var ctxMap: Option<Attributes>

    /** A request whose context holds no attribute map yet. */
    constructor ()
      ensures ctxMap == None
    {
      ctxMap := None;
    }

    /** ContextMap: the attached map, or NotPopulated where the Go type assertion panics. */
    function ContextMap(): (r: Result<Attributes, Fault>)
      reads this
      ensures ctxMap.None? <==> r == Failure(NotPopulated)
      ensures ctxMap.Some? ==> r == Success(ctxMap.value)
    {
      match ctxMap
      case None => Failure(NotPopulated)
      case Some(m) => Success(m)
    }

    /** The accessors (AccessKey, SkipOnHit, ..., ChunkID): the attribute's value, "" when
      the map lacks it, NotPopulated when no map is attached. */
    function Attribute(name: AttrName): (r: Result<string, Fault>)
      reads this
      ensures ctxMap.None? <==> r == Failure(NotPopulated)
      ensures ctxMap.Some? && name.Key() in ctxMap.value ==> r == Success(ctxMap.value[name.Key()])
      ensures ctxMap.Some? && name.Key() !in ctxMap.value ==> r == Success("")
    {
      match ContextMap()
      case Failure(e) => Failure(e)
      case Success(m) => Success(Lookup(m, name.Key()))
    }

    /** InitialCtx: split X-ApiKeys on ';', each segment on '=', record the credentials,
        then the two cache-control flags with their defaults, and attach the fresh map.
        On a credential segment without '=' it faults and attaches nothing. */
    method InitialCtx(apiKeys: string, skipHeader: string, writeHeader: string, defaults: CacheDefaults)
      returns (o: Outcome<Fault>)
      modifies this
      ensures match InitialAttributes(apiKeys, skipHeader, writeHeader, defaults)
              case Success(m) => o == Pass && ctxMap == Some(m)
              case Failure(e) => o == Fail(e) && ctxMap == old(ctxMap)
    {
      var m: Attributes := map[];
      var xKeys := Split(apiKeys, ';');
      ghost var segments := Segments(apiKeys);
      SegmentsPieces(apiKeys);
      for x := 0 to |xKeys|
        invariant ParseApiKeys(segments[..x]) == Success(m)
        invariant ctxMap == old(ctxMap)
      {
        ParseStep(segments, x, m);
        var keys := Split(xKeys[x], '=');
        assert segments[x] == Segment(xKeys[x], keys, KeyRole(keys[0]));
        if ToLower(keys[0]) == "accesskey" {
          if |keys| < 2 {
            ParsePrefixFailure(segments, x + 1);
            return Fail(MissingValue(xKeys[x]));
          }
          m := m[AccessKey.Key() := keys[1]];
        } else if ToLower(keys[0]) == "secretkey" {
          if |keys| < 2 {
            ParsePrefixFailure(segments, x + 1);
            return Fail(MissingValue(xKeys[x]));
          }
          m := m[SecretKey.Key() := keys[1]];
        }
      }
      assert segments[..|xKeys|] == segments;
      ghost var credentials := m;

      m := m[SkipOnHit.Key() := skipHeader];
      m := m[WriteOnReturn.Key() := writeHeader];
      if m[SkipOnHit.Key()] == "" {
        m := m[SkipOnHit.Key() := FormatBool(defaults.skipOnHit)];
      }
      if m[WriteOnReturn.Key()] == "" {
        m := m[WriteOnReturn.Key() := FormatBool(defaults.writeOnReturn)];
      }
      FlagWrites(credentials, skipHeader, writeHeader, defaults);
      ctxMap := Some(m);
      o := Pass;
    }

    /** The shared step of the one-attribute stages: fault when no map is attached,
        otherwise overwrite `name` in the shared map. */
    method SetAttribute(name: AttrName, value: string) returns (o: Outcome<Fault>)
      modifies this
      ensures old(ctxMap).None? ==> o == Fail(NotPopulated) && ctxMap == old(ctxMap)
      ensures old(ctxMap).Some? ==> o == Pass && ctxMap == Some(WithAttribute(old(ctxMap).value, name, value))
    {
      match ctxMap
      case None =>
        o := Fail(NotPopulated);
      case Some(m) =>
        ctxMap := Some(m[name.Key() := value]);
        o := Pass;
    }

    /** ExportCtx: record the ExportUUID route parameter. */
    method ExportCtx(exportUUID: string) returns (o: Outcome<Fault>)
      modifies this
      ensures old(ctxMap).None? ==> o == Fail(NotPopulated) && ctxMap == old(ctxMap)
      ensures old(ctxMap).Some? ==> o == Pass && ctxMap == Some(WithAttribute(old(ctxMap).value, ExportUUID, exportUUID))
    {
      o := SetAttribute(ExportUUID, exportUUID);
    }

    /** ExportChunkCtx: record the ChunkID route parameter. */
    method ExportChunkCtx(chunkId: string) returns (o: Outcome<Fault>)
      modifies this
      ensures old(ctxMap).None? ==> o == Fail(NotPopulated) && ctxMap == old(ctxMap)
      ensures old(ctxMap).Some? ==> o == Pass && ctxMap == Some(WithAttribute(old(ctxMap).value, ChunkID, chunkId))
    {
      o := SetAttribute(ChunkID, chunkId);
    }

    /** AgentGroupCtx: record the GroupID route parameter. */
    method AgentGroupCtx(groupId: string) returns (o: Outcome<Fault>)
      modifies this
      ensures old(ctxMap).None? ==> o == Fail(NotPopulated) && ctxMap == old(ctxMap)
      ensures old(ctxMap).Some? ==> o == Pass && ctxMap == Some(WithAttribute(old(ctxMap).value, GroupID, groupId))
    {
      o := SetAttribute(GroupID, groupId);
    }

    /** AgentCtx: record the AgentID route parameter. */
    method AgentCtx(agentId: string) returns (o: Outcome<Fault>)
      modifies this
      ensures old(ctxMap).None? ==> o == Fail(NotPopulated) && ctxMap == old(ctxMap)
      ensures old(ctxMap).Some? ==> o == Pass && ctxMap == Some(WithAttribute(old(ctxMap).value, AgentID, agentId))
    {
      o := SetAttribute(AgentID, agentId);
    }

    /** ScannersCtx: record the ScannerID route parameter and the offset and limit query
        values, each defaulted when empty. */
    method ScannersCtx(scannerId: string, offsetQuery: string, limitQuery: string) returns (o: Outcome<Fault>)
      modifies this
      ensures old(ctxMap).None? ==> o == Fail(NotPopulated) && ctxMap == old(ctxMap)
      ensures old(ctxMap).Some? ==>
                o == Pass && ctxMap == Some(ScannerAttributes(old(ctxMap).value, scannerId, offsetQuery, limitQuery))
    {
      match ctxMap
      case None =>
        o := Fail(NotPopulated);
      case Some(m) =>
        m := m[ScannerID.Key() := scannerId];
        m := m[Offset.Key() := offsetQuery];
        m := m[Limit.Key() := limitQuery];
        if m[Offset.Key()] == "" {
          m := m[Offset.Key() := "0"];
        }
        if m[Limit.Key()] == "" {
          m := m[Limit.Key() := "5000"];
        }
        assert m == ScannerAttributes(old(ctxMap).value, scannerId, offsetQuery, limitQuery);
        ctxMap := Some(m);
        o := Pass;
    }
  }
}
