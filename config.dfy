// The orchestrator's configuration reducers: the id lists read from workflow YAML, the model
// router (which backends and models a role runs on, and how many), and the quota policy that
// decides when a failed run counts as an exhausted model. File contents arrive as parameters.

module RoleConfig {
  import opened Text
  import opened JsonValue

  // ---------------------------------------------------------------- YAML id lists

  /** A character of the identifier class [a-zA-Z0-9_-]. */
  predicate IsIdChar(c: char) {
    ('a' <= c <= 'z') || ('A' <= c <= 'Z') || IsDigit(c) || c == '_' || c == '-'
  }

  predicate IsId(s: string) {
    |s| > 0 && forall i :: 0 <= i < |s| ==> IsIdChar(s[i])
  }

  /** The number of whitespace characters that open `s`. */
  function LeadingSpace(s: string): (n: nat)
    ensures n <= |s| && (n == |s| || !IsSpace(s[n]))
    ensures forall i :: 0 <= i < n ==> IsSpace(s[i])
  {
    LStripFacts(s);
    |s| - |LStrip(s)|
  }

  /** The length of the run of identifier characters that opens `s`. */
  function IdRun(s: string): (n: nat)
    ensures n <= |s| && (n == |s| || !IsIdChar(s[n]))
    ensures forall i :: 0 <= i < n ==> IsIdChar(s[i])
  {
    if |s| > 0 && IsIdChar(s[0]) then 1 + IdRun(s[1..]) else 0
  }

  /** The line `^(\s*)key\s*:\s*$`: Some(the indentation) when it matches. */
  function KeyLine(line: string, key: string): (r: Option<nat>)
    requires key != [] && !IsSpace(key[0])
  {
    var n := LeadingSpace(line);
    var rest := line[n..];
    if !StartsWith(rest, key) then None
    else
      var after := LStrip(rest[|key|..]);
      if |after| > 0 && after[0] == ':' && IsBlank(after[1..]) then Some(n) else None
  }

  /** The line `^\s*-\s*([a-zA-Z0-9_-]+)\s*$`: Some(the identifier) when it matches. */
  function ItemLine(line: string): (r: Option<string>)
    ensures r.Some? ==> IsId(r.value)
  {
    var rest := LStrip(line);
    if |rest| == 0 || rest[0] != '-' then None
    else
      var body := LStrip(rest[1..]);
      var n := IdRun(body);
      if n > 0 && IsBlank(body[n..]) then Some(body[..n]) else None
  }

  /** `len(line) - len(line.lstrip(" "))`: only space characters count. */
  function SpaceIndent(line: string): nat {
    |line| - |LStripSpaces(line)|
  }

  /** What one line does to the scan: before the key line (`indent` None) the line is compared
      against the key; after it, a blank line is skipped, a line indented no deeper than the
      key ends the list, and any other line adds its identifier when it is an item line. */
  datatype Step = Next(indent: Option<nat>, item: Option<string>) | Stop

  function YamlStep(line: string, key: string, indent: Option<nat>): Step
    requires key != [] && !IsSpace(key[0])
  {
    if indent.None? then Next(KeyLine(line, key), None)
    else if IsBlank(line) then Next(indent, None)
    else if SpaceIndent(line) <= indent.value then Stop
    else Next(indent, ItemLine(line))
  }

  function Added(acc: seq<string>, item: Option<string>): seq<string> {
    if item.Some? then acc + [item.value] else acc
  }

  /** The scan from line i on, with the key indentation and the values found so far. */
  function YamlScan(lines: seq<string>, key: string, i: nat, indent: Option<nat>, acc: seq<string>): seq<string>
    requires key != [] && !IsSpace(key[0])
    requires i <= |lines|
    decreases |lines| - i
  {
    if i == |lines| then acc
    else
      match YamlStep(lines[i], key, indent)
      case Stop => acc
      case Next(ind, item) => YamlScan(lines, key, i + 1, ind, Added(acc, item))
  }

  /** _parse_yaml_id_list over the lines of the file (a missing file has none). */
  method ParseYamlIdList(lines: seq<string>, key: string) returns (values: seq<string>)
    requires key != [] && !IsSpace(key[0])
    ensures values == YamlScan(lines, key, 0, None, [])
  {
    var keyIndent: Option<nat> := None;
    values := [];
    var i := 0;
    while i < |lines|
      invariant i <= |lines|
      invariant YamlScan(lines, key, i, keyIndent, values) == YamlScan(lines, key, 0, None, [])
      decreases |lines| - i
    {
      var line := lines[i];
      ghost var step := YamlStep(line, key, keyIndent);
      if keyIndent.None? {
        keyIndent := KeyLine(line, key);
        i := i + 1;
        continue;
      }
      StripEmptyIffBlank(line);
      if Strip(line) == "" {
        i := i + 1;
        continue;
      }
      var indent := |line| - |LStripSpaces(line)|;
      if indent <= keyIndent.value {
        assert step == Stop;
        break;
      }
      var item := ItemLine(line);
      assert step == Next(keyIndent, item);
      if item.Some? {
        values := values + [item.value];
      }
      i := i + 1;
    }
  }

  /** Every value found is an identifier, coming after the key line. */
  lemma {:induction false} YamlScanIds(lines: seq<string>, key: string, i: nat, indent: Option<nat>, acc: seq<string>)
    requires key != [] && !IsSpace(key[0])
    requires i <= |lines|
    requires forall v :: v in acc ==> IsId(v)
    requires indent.None? ==> acc == []
    ensures forall v :: v in YamlScan(lines, key, i, indent, acc) ==> IsId(v)
    ensures (forall j :: i <= j < |lines| ==> KeyLine(lines[j], key).None?) && indent.None? ==>
              YamlScan(lines, key, i, indent, acc) == []
    decreases |lines| - i
  {
    if i < |lines| {
      match YamlStep(lines[i], key, indent)
      case Stop =>
      case Next(ind, item) =>
        YamlScanIds(lines, key, i + 1, ind, Added(acc, item));
    }
  }

  lemma {:induction false} ParseYamlIdListIds(lines: seq<string>, key: string)
    requires key != [] && !IsSpace(key[0])
    ensures forall v :: v in YamlScan(lines, key, 0, None, []) ==> IsId(v)
    ensures (forall j :: 0 <= j < |lines| ==> KeyLine(lines[j], key).None?) ==> YamlScan(lines, key, 0, None, []) == []
  {
    YamlScanIds(lines, key, 0, None, []);
  }

  /** "  - id" is an item line naming id. */
  lemma {:induction false} ItemLineOf(id: string)
    requires IsId(id)
    ensures ItemLine("  - " + id) == Some(id)
  {
    var line := "  - " + id;
    assert line[0] == ' ' && line[1] == ' ' && line[2] == '-';
    LStripAt(line, 2);
    var tail := line[3..];
    assert tail[0] == ' ' && tail[1..] == id;
    assert !IsSpace(id[0]);
    LStripAt(tail, 1);
    IdRunAll(id);
    assert id[..|id|] == id;
  }

  lemma {:induction false} IdRunAll(s: string)
    requires forall i :: 0 <= i < |s| ==> IsIdChar(s[i])
    ensures IdRun(s) == |s|
  {
    if |s| > 0 {
      IdRunAll(s[1..]);
    }
  }

  lemma {:induction false} ItemStep(line: string, id: string, key: string)
    requires key != [] && !IsSpace(key[0])
    requires IsId(id) && line == "  - " + id
    ensures YamlStep(line, key, Some(0)) == Next(Some(0), Some(id))
  {
    assert line[0] == ' ' && line[1] == ' ' && line[2] == '-';
    assert !IsBlank(line) by {
      assert !IsSpace(line[2]);
    }
    assert LStripSpaces(line) == line[2..] by {
      assert BlanksEnd(line, 2) == 2;
      assert BlanksEnd(line, 1) == 2;
    }
    ItemLineOf(id);
  }

  lemma {:induction false} ItemsScan(key: string, ids: seq<string>, lines: seq<string>, k: nat)
    requires key != [] && !IsSpace(key[0])
    requires forall v :: v in ids ==> IsId(v)
    requires k <= |ids| && 1 + |ids| == |lines|
    requires forall j :: 0 <= j < |ids| ==> lines[1 + j] == "  - " + ids[j]
    ensures YamlScan(lines, key, 1 + k, Some(0), ids[..k]) == ids
    decreases |ids| - k
  {
    if k == |ids| {
      assert ids[..k] == ids;
    } else {
      assert ids[k] in ids;
      ItemStep(lines[1 + k], ids[k], key);
      TakeSnoc(ids, k);
      ItemsScan(key, ids, lines, k + 1);
    }
  }

  lemma {:induction false} KeyLineOf(key: string)
    requires key != [] && !IsSpace(key[0])
    ensures KeyLine(key + ":", key) == Some(0)
  {
    var k := key + ":";
    assert k[0] == key[0];
    var n := LeadingSpace(k);
    assert n == 0;
    assert k[n..] == k;
    assert k[..|key|] == key;
    assert StartsWith(k, key);
    assert k[|key|..] == ":";
    LStripAt(":", 0);
    assert LStrip(k[|key|..]) == ":";
    assert IsBlank(":"[1..]);
  }

  /** A key line followed by one "  - id" line per identifier yields exactly those ids. */
  lemma {:induction false} YamlListRoundTrip(key: string, ids: seq<string>)
    requires key != [] && !IsSpace(key[0])
    requires forall v :: v in ids ==> IsId(v)
    ensures YamlScan([key + ":"] + seq(|ids|, j requires 0 <= j < |ids| => "  - " + ids[j]), key, 0, None, []) == ids
  {
    var lines := [key + ":"] + seq(|ids|, j requires 0 <= j < |ids| => "  - " + ids[j]);
    KeyLineOf(key);
    assert YamlStep(lines[0], key, None) == Next(Some(0), None);
    ItemsScan(key, ids, lines, 0);
    assert ids[..0] == [];
  }

  // ---------------------------------------------------------------- model router

  /** One step of a role's model chain. */
  datatype ChainEntry = ChainEntry(backend: string, model: string)

  const CodexDefault := ChainEntry("codex", "")

  /** The reduced model-router document. */
  datatype RouterConfig = RouterConfig(defaultChain: seq<Json>, roles: Fields, maxAttempts: int)

  /** int(v) for a decoded value; None where Python's int() raises. */
  function PyInt(j: Json): Option<int> {
    match j
    case JNum(n) => Some(n)
    case JBool(b) => Some(if b then 1 else 0)
    case JStr(s) => ParseInt(s)
    case _ => None
  }

  /** read_model_router_config on the loaded object ({} when the file is missing or invalid);
      None when max_model_attempts_per_task is not an integer, where Python raises. */
  function RouterConfigOf(data: Fields): (r: Option<RouterConfig>)
    ensures r.Some? ==> |r.value.defaultChain| >= 1
    ensures !Has(data, "max_model_attempts_per_task") ==> r.Some? && r.value.maxAttempts == 3
  {
    var dc := GetOr(data, "default_chain", JNull);
    var chain := if IsNonEmptyList(dc) then dc.items
                 else [JObj([("backend", JStr("codex")), ("model", JStr(""))])];
    var roles := GetOr(data, "roles", JNull);
    match PyInt(GetOr(data, "max_model_attempts_per_task", JNum(3)))
    case None => None
    case Some(m) => Some(RouterConfig(chain, if roles.JObj? then roles.fields else [], m))
  }

  /** normalize_model_chain_entry: the backend is stripped and lowered, "codex" when that
      leaves nothing; the model is stripped. */
  lemma {:induction false} CodexLowered()
    ensures Lower("codex") == "codex" && IsStripped("codex")
  {
    var c := "codex";
    assert forall i :: 0 <= i < |c| ==> LowerChar(c[i]) == c[i];
  }

  /** str(backend).strip().lower(), "codex" when that leaves nothing. */
  function NormalizeBackend(raw: string): (r: string)
    ensures r != "" && IsStripped(r) && Lower(r) == r
  {
    CodexLowered();
    var b := Lower(Strip(raw));
    LowerKeepsSpaces(Strip(raw));
    LowerIdempotent(Strip(raw));
    if b == "" then "codex" else b
  }

  lemma {:induction false} NormalizeBackendIdempotent(raw: string)
    ensures NormalizeBackend(NormalizeBackend(raw)) == NormalizeBackend(raw)
  {
    var r := NormalizeBackend(raw);
    assert Strip(r) == r;
  }

  function NormalizeEntry(entry: Json): (r: ChainEntry)
    ensures r.backend != "" && IsStripped(r.backend) && Lower(r.backend) == r.backend
    ensures IsStripped(r.model)
  {
    if !entry.JObj? then CodexDefault
    else
      ChainEntry(NormalizeBackend(PyStr(GetOr(entry.fields, "backend", JStr("codex")))),
                 Strip(PyStr(GetOr(entry.fields, "model", JStr("")))))
  }

  /** The object a chain entry is written as. */
  function EntryJson(e: ChainEntry): Json {
    JObj([("backend", JStr(e.backend)), ("model", JStr(e.model))])
  }

  lemma {:induction false} EntryJsonFields(e: ChainEntry)
    ensures GetOr(EntryJson(e).fields, "backend", JStr("codex")) == JStr(e.backend)
    ensures GetOr(EntryJson(e).fields, "model", JStr("")) == JStr(e.model)
  {
    var f := EntryJson(e).fields;
    assert f[1].0 != "backend";
    var h := f[..1];
    assert h == [("backend", JStr(e.backend))];
    assert h[|h| - 1].0 == "backend";
    assert Get(h, "backend") == Some(JStr(e.backend));
    assert Get(f, "backend") == Get(h, "backend");
  }

  /** Normalising is idempotent: a normalised entry written back normalises to itself. */
  lemma {:induction false} NormalizeIdempotent(entry: Json)
    ensures NormalizeEntry(EntryJson(NormalizeEntry(entry))) == NormalizeEntry(entry)
  {
    if entry.JObj? {
      NormalizeObjectIdempotent(entry);
    } else {
      NormalizeDefaultFixed();
    }
  }

  lemma {:induction false} NormalizeObjectIdempotent(entry: Json)
    requires entry.JObj?
    ensures NormalizeEntry(EntryJson(NormalizeEntry(entry))) == NormalizeEntry(entry)
  {
    var e := NormalizeEntry(entry);
    EntryJsonFields(e);
    NormalizeBackendIdempotent(PyStr(GetOr(entry.fields, "backend", JStr("codex"))));
    assert NormalizeEntry(EntryJson(e)) == ChainEntry(NormalizeBackend(e.backend), Strip(e.model));
  }

  lemma {:induction false} NormalizeDefaultFixed()
    ensures NormalizeEntry(EntryJson(CodexDefault)) == CodexDefault
  {
    EntryJsonFields(CodexDefault);
    CodexFixed();
    assert Strip("") == "";
  }

  lemma {:induction false} CodexFixed()
    ensures NormalizeBackend("codex") == "codex"
  {
    CodexLowered();
    assert Strip("codex") == "codex";
  }

  /** The dict entries of a chain source, normalised. */
  function ChainObjects(src: seq<Json>): (r: seq<ChainEntry>)
    ensures |r| <= |src|
    ensures forall e :: e in r ==> e.backend != ""
  {
    if |src| == 0 then []
    else (if src[0].JObj? then [NormalizeEntry(src[0])] else []) + ChainObjects(src[1..])
  }

  function Max(a: int, b: int): int {
    if a >= b then a else b
  }

  function Min(a: int, b: int): int {
    if a <= b then a else b
  }

  /** model_chain_for_role: the role's own non-empty list, else the default chain; its dict
      entries normalised (the codex default when there are none), cut to
      max(max_model_attempts_per_task, 1) entries. */
  function ModelChainForRole(config: RouterConfig, role: string): (r: seq<ChainEntry>)
    ensures 1 <= |r| <= Max(config.maxAttempts, 1)
    ensures forall e :: e in r ==> e.backend != ""
  {
    var own := Get(config.roles, role);
    var src := if own.Some? && IsNonEmptyList(own.value) then own.value.items else config.defaultChain;
    var chain := ChainObjects(src);
    var full := if chain == [] then [CodexDefault] else chain;
    var n := Max(config.maxAttempts, 1);
    if |full| <= n then full else full[..n]
  }

  /** The chain is the role's normalised entries in order, as many as the cap allows. */
  lemma {:induction false} ModelChainPrefix(config: RouterConfig, role: string)
    ensures var own := Get(config.roles, role);
            var src := if own.Some? && IsNonEmptyList(own.value) then own.value.items else config.defaultChain;
            var chain := ChainObjects(src);
            var r := ModelChainForRole(config, role);
            (chain == [] ==> r == [CodexDefault]) &&
            (chain != [] ==> |r| == Min(|chain|, Max(config.maxAttempts, 1)) && r == chain[..|r|])
  {
  }

  // ---------------------------------------------------------------- quota policy

  const DefaultDeferMinutes := 45

  const DefaultQuotaMarkers: Json := JArr([
    JStr("rate limit"), JStr("quota"), JStr("limit exceeded"), JStr("too many requests"),
    JStr("429"), JStr("insufficient credits")
  ])

  datatype QuotaPolicy = QuotaPolicy(deferOnExhausted: bool, deferMinutes: int, markers: Json)

  /** read_quota_policy on the loaded object; None when the minutes are not an integer. */
  function QuotaPolicyOf(data: Fields): (r: Option<QuotaPolicy>)
    ensures data == [] ==> r == Some(QuotaPolicy(true, DefaultDeferMinutes, DefaultQuotaMarkers))
  {
    var defer := Truthy(GetOr(data, "defer_on_exhausted_models", JBool(true)));
    match PyInt(GetOr(data, "defer_minutes_on_exhausted_models", JNum(DefaultDeferMinutes)))
    case None => None
    case Some(m) => Some(QuotaPolicy(defer, m, GetOr(data, "quota_error_markers", DefaultQuotaMarkers)))
  }

  function AnyMarker(markers: seq<Json>, lowered: string): (b: bool)
    ensures b <==> exists i :: 0 <= i < |markers| && markers[i].JStr? && Contains(lowered, Lower(markers[i].s))
  {
    if |markers| == 0 then false
    else
      assert forall i :: 0 <= i < |markers| - 1 ==> markers[1..][i] == markers[i + 1];
      (markers[0].JStr? && Contains(lowered, Lower(markers[0].s))) || AnyMarker(markers[1..], lowered)
  }

  /** is_quota_error: some string marker, lowered, occurs in the lowered stderr; a markers value
      that is not a list has no markers. */
  function IsQuotaError(markers: Json, stderr: string): (b: bool)
    ensures b <==> markers.JArr? &&
                   exists i :: 0 <= i < |markers.items| && markers.items[i].JStr? &&
                               Contains(Lower(stderr), Lower(markers.items[i].s))
  {
    markers.JArr? && AnyMarker(markers.items, Lower(stderr))
  }

  /** The match ignores letter case in the error text. */
  lemma {:induction false} QuotaErrorIgnoresCase(markers: Json, stderr: string)
    ensures IsQuotaError(markers, Lower(stderr)) == IsQuotaError(markers, stderr)
  {
    LowerIdempotent(stderr);
  }
}
