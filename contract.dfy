// The output contract: locating the JSON footer of an agent reply, validating it against
// the task and the role, checking the markdown report sections, and reducing the footer to
// the compression record handed to the next role.

module Contract {
  import opened Text
  import opened JsonValue

  // ---------------------------------------------------------------- locating the footer

  const Fence := "```"
  const JsonFence := "```json"

  /** A decoded document is a contract only when it is an object. */
  function AsObject(j: Option<Json>): (r: Option<Fields>)
    ensures r.Some? <==> j.Some? && j.value.JObj?
  {
    if j.Some? && j.value.JObj? then Some(j.value.fields) else None
  }

  /** The text between the line that holds the last "```json" (in any letter case) and the
      next "```", stripped; None when any of these is missing or the text is blank. */
  function FencedCandidate(text: string): (r: Option<string>)
    ensures r.Some? ==> r.value != "" && IsStripped(r.value)
  {
    match RFind(Lower(text), JsonFence)
    case None => None
    case Some(start) =>
      match Find(text, "\n", start)
      case None => None
      case Some(nl) =>
        match Find(text, Fence, nl + 1)
        case None => None
        case Some(end) =>
          var c := Strip(text[nl + 1..end]);
          if c == "" then None else Some(c)
  }

  /** The fenced-block reader; `parse` stands for json.loads, None meaning a decode error. */
  function ExtractFromFencedBlock(text: string, parse: string -> Option<Json>): (r: Option<Fields>)
    ensures r.Some? <==> FencedCandidate(text).Some? && parse(FencedCandidate(text).value).Some? &&
                         parse(FencedCandidate(text).value).value.JObj?
    ensures r.Some? ==> parse(FencedCandidate(text).value) == Some(JObj(r.value))
  {
    match FencedCandidate(text)
    case None => None
    case Some(c) => AsObject(parse(c))
  }

  /** The text from the last "{" to the last "}", stripped, when the "}" comes later. */
  function BraceCandidate(text: string): (r: Option<string>)
    ensures r.Some? ==> |r.value| >= 2 && r.value[0] == '{' && r.value[|r.value| - 1] == '}'
  {
    var start := RFind(text, "{");
    var end := RFind(text, "}");
    if start.None? || end.None? || end.value <= start.value then None
    else
      var c := text[start.value..end.value + 1];
      RFindFacts(text, "{");
      RFindFacts(text, "}");
      assert text[start.value] == '{' by {
        assert text[start.value..start.value + 1] == "{";
        assert text[start.value..start.value + 1][0] == text[start.value];
      }
      assert text[end.value] == '}' by {
        assert text[end.value..end.value + 1] == "}";
        assert text[end.value..end.value + 1][0] == text[end.value];
      }
      assert c[0] == '{' && c[|c| - 1] == '}';
      assert IsStripped(c);
      Some(Strip(c))
  }

  /** extract_output_contract: a non-empty fenced object wins; otherwise the brace fallback. */
  function ExtractOutputContract(text: string, parse: string -> Option<Json>): (r: Option<Fields>)
    ensures r.Some? ==> exists c :: parse(c) == Some(JObj(r.value)) &&
                                    (FencedCandidate(text) == Some(c) || BraceCandidate(text) == Some(c))
  {
    var fenced := ExtractFromFencedBlock(text, parse);
    if fenced.Some? && |fenced.value| > 0 then fenced
    else
      match BraceCandidate(text)
      case None => None
      case Some(c) => AsObject(parse(c))
  }

  lemma {:induction false} FindIs(s: string, sub: string, from: nat, k: nat)
    requires from <= k && MatchAt(s, sub, k)
    requires forall i :: from <= i < k ==> !MatchAt(s, sub, i)
    ensures Find(s, sub, from) == Some(k)
  {
    FindFacts(s, sub, from);
  }

  lemma {:induction false} RFindIs(s: string, sub: string, k: nat)
    requires MatchAt(s, sub, k)
    requires forall i :: k < i ==> !MatchAt(s, sub, i)
    ensures RFind(s, sub) == Some(k)
  {
    RFindFacts(s, sub);
  }

  lemma {:induction false} FirstChar(s: string, c: char, from: nat, k: nat)
    requires from <= k < |s| && s[k] == c && c !in s[from..k]
    ensures Find(s, [c], from) == Some(k)
  {
    assert s[k..k + 1] == [c];
    forall i | from <= i < k
      ensures !MatchAt(s, [c], i)
    {
      assert s[i..i + 1][0] == s[i] == s[from..k][i - from];
    }
    FindIs(s, [c], from, k);
  }

  lemma {:induction false} LastChar(s: string, c: char, k: nat)
    requires k < |s| && s[k] == c && c !in s[k + 1..]
    ensures RFind(s, [c]) == Some(k)
  {
    assert s[k..k + 1] == [c];
    forall i | k < i
      ensures !MatchAt(s, [c], i)
    {
      if i < |s| {
        assert s[i..i + 1][0] == s[i] == s[k + 1..][i - k - 1];
      }
    }
    RFindIs(s, [c], k);
  }

  lemma {:induction false} FirstFence(s: string, from: nat, k: nat)
    requires from <= k && k + 3 <= |s| && s[k..k + 3] == Fence && '`' !in s[from..k]
    ensures Find(s, Fence, from) == Some(k)
  {
    forall i | from <= i < k
      ensures !MatchAt(s, Fence, i)
    {
      if i + 3 <= |s| {
        assert s[i..i + 3][0] == s[i] == s[from..k][i - from];
      }
    }
    FindIs(s, Fence, from, k);
  }

  lemma {:induction false} LastMarker(s: string, k: nat)
    requires k + 7 <= |s| && s[k..k + 7] == JsonFence
    requires forall i :: k < i ==> !MatchAt(Lower(s), JsonFence, i)
    ensures RFind(Lower(s), JsonFence) == Some(k)
  {
    assert Lower(s)[k..k + 7] == Lower(s[k..k + 7]);
    assert Lower(JsonFence) == JsonFence;
    RFindIs(Lower(s), JsonFence, k);
  }

  lemma {:induction false} NoMarker(s: string)
    requires '`' !in s
    ensures RFind(Lower(s), JsonFence) == None
  {
    RFindFacts(Lower(s), JsonFence);
    forall i | true
      ensures !MatchAt(Lower(s), JsonFence, i)
    {
      if 0 <= i && i + 7 <= |s| {
        assert Lower(s)[i..i + 7][0] == Lower(s)[i] == LowerChar(s[i]);
      }
    }
  }

  lemma {:induction false} FencedCandidateAt(text: string, k: nat, nl: nat, e: nat)
    requires RFind(Lower(text), JsonFence) == Some(k)
    requires Find(text, "\n", k) == Some(nl) && Find(text, Fence, nl + 1) == Some(e)
    requires !IsBlank(text[nl + 1..e])
    ensures FencedCandidate(text) == Some(Strip(text[nl + 1..e]))
  {
    var c := text[nl + 1..e];
    assert Strip(c) != [] by {
      StripEmptyIffBlank(c);
    }
  }

  /** A reply whose last "```json" block holds a non-empty object yields exactly that object. */
  lemma {:induction false} FencedFooterRoundTrip(pre: string, tag: string, body: string, post: string,
                                                 parse: string -> Option<Json>, f: Fields)
    requires '\n' !in tag && '`' !in body && !IsBlank(body)
    requires var text := pre + JsonFence + tag + "\n" + body + Fence + post;
             forall i :: |pre| < i ==> !MatchAt(Lower(text), JsonFence, i)
    requires parse(Strip(body)) == Some(JObj(f)) && |f| > 0
    ensures ExtractOutputContract(pre + JsonFence + tag + "\n" + body + Fence + post, parse) == Some(f)
  {
    var text := pre + JsonFence + tag + "\n" + body + Fence + post;
    FencedParts(text, pre, tag, body, post);
  }

  lemma {:induction false} FencedParts(text: string, pre: string, tag: string, body: string, post: string)
    requires text == pre + JsonFence + tag + "\n" + body + Fence + post
    requires '\n' !in tag && '`' !in body && !IsBlank(body)
    requires forall i :: |pre| < i ==> !MatchAt(Lower(text), JsonFence, i)
    ensures FencedCandidate(text) == Some(Strip(body))
  {
    var nl := |pre| + 7 + |tag|;
    var e := nl + 1 + |body|;
    FencedShape(text, pre, tag, body, post);
    FencedAt(text, |pre|, nl, e);
  }

  /** The fenced block found from the positions of its marker, its first newline and its
      closing fence. */
  lemma {:induction false} FencedAt(text: string, k: nat, nl: nat, e: nat)
    requires k + 7 <= nl < e && e + 3 <= |text|
    requires text[k..k + 7] == JsonFence && text[nl] == '\n' && '\n' !in text[k..nl]
    requires text[e..e + 3] == Fence && '`' !in text[nl + 1..e] && !IsBlank(text[nl + 1..e])
    requires forall i :: k < i ==> !MatchAt(Lower(text), JsonFence, i)
    ensures FencedCandidate(text) == Some(Strip(text[nl + 1..e]))
  {
    LastMarker(text, k);
    FirstChar(text, '\n', k, nl);
    FirstFence(text, nl + 1, e);
    FencedCandidateAt(text, k, nl, e);
  }

  lemma {:induction false} FencedShape(text: string, pre: string, tag: string, body: string, post: string)
    requires text == pre + JsonFence + tag + "\n" + body + Fence + post
    requires '\n' !in tag
    ensures var nl := |pre| + 7 + |tag|;
            var e := nl + 1 + |body|;
            e + 3 <= |text| && text[|pre|..|pre| + 7] == JsonFence && text[nl] == '\n' &&
            '\n' !in text[|pre|..nl] && text[nl + 1..e] == body && text[e..e + 3] == Fence
  {
    var head := pre + JsonFence;
    var line := head + tag;
    var nl := |line|;
    var e := nl + 1 + |body|;
    assert text == line + ("\n" + body + Fence + post);
    assert text[..|head|] == head;
    assert text[|pre|..|pre| + 7] == head[|pre|..];
    assert text[..nl] == line;
    assert text[|pre|..nl] == line[|pre|..] == JsonFence + tag;
    assert text[nl + 1..] == body + Fence + post;
  }

  /** Without any fenced block the contract is read from the last "{" to the last "}", so only
      the innermost object that opens last can be recovered. */
  lemma {:induction false} BraceFallback(pre: string, mid: string, post: string, parse: string -> Option<Json>)
    requires '`' !in pre + "{" + mid + "}" + post
    requires '{' !in mid && '{' !in post && '}' !in post
    ensures ExtractOutputContract(pre + "{" + mid + "}" + post, parse) == AsObject(parse("{" + mid + "}"))
  {
    var text := pre + "{" + mid + "}" + post;
    var o := |pre|;
    var c := o + 1 + |mid|;
    NoMarker(text);
    assert FencedCandidate(text) == None;
    assert text[o + 1..] == mid + "}" + post;
    LastChar(text, '{', o);
    assert text[c + 1..] == post;
    LastChar(text, '}', c);
    assert text[o..c + 1] == "{" + mid + "}";
    assert BraceCandidate(text) == Some("{" + mid + "}");
  }

  // ---------------------------------------------------------------- artifacts

  /** The strings of a list, each stripped; blank ones are kept (as ""). */
  function StripStrings(xs: seq<Json>): (r: seq<string>)
    ensures forall p :: p in r ==> IsStripped(p)
    ensures forall p :: p in r <==> exists k :: 0 <= k < |xs| && xs[k].JStr? && Strip(xs[k].s) == p
  {
    if |xs| == 0 then []
    else
      var r := (if xs[0].JStr? then [Strip(xs[0].s)] else []) + StripStrings(xs[1..]);
      assert forall k :: 0 <= k < |xs| - 1 ==> xs[1..][k] == xs[k + 1];
      assert forall k :: 1 <= k < |xs| ==> xs[k] == xs[1..][k - 1];
      r
  }

  /** The non-empty members of `xs`, in order. */
  function NonEmpty(xs: seq<string>): (r: seq<string>)
    ensures forall p :: p in r <==> p in xs && p != ""
  {
    if |xs| == 0 then [] else (if xs[0] == "" then [] else [xs[0]]) + NonEmpty(xs[1..])
  }

  /** The value under `key`, JNull standing for an absent key (dict.get). */
  function Field(c: Fields, key: string): Json {
    GetOr(c, key, JNull)
  }

  /** The stripped paths one artifact entry names: a string entry is itself; an object gives its
      "path" when that is a string, else its "value" string, else the strings of a "value" list. */
  function EntryPaths(a: Json): (r: seq<string>)
    ensures forall p :: p in r ==> IsStripped(p)
  {
    match a
    case JStr(s) => [Strip(s)]
    case JObj(f) =>
      (match Field(f, "path")
       case JStr(p) => [Strip(p)]
       case _ =>
         match Field(f, "value")
         case JStr(v) => [Strip(v)]
         case JArr(xs) => StripStrings(xs)
         case _ => [])
    case _ => []
  }

  function ArtifactListPaths(arts: seq<Json>): (r: seq<string>)
    ensures forall p :: p in r ==> p != "" && IsStripped(p)
    ensures forall p :: p in r <==> p != "" && exists i :: 0 <= i < |arts| && p in EntryPaths(arts[i])
  {
    if |arts| == 0 then []
    else
      var r := NonEmpty(EntryPaths(arts[0])) + ArtifactListPaths(arts[1..]);
      assert forall p, i :: 0 <= i < |arts| - 1 && p in EntryPaths(arts[1..][i]) ==> p in EntryPaths(arts[i + 1]);
      assert forall p, i :: 1 <= i < |arts| && p in EntryPaths(arts[i]) ==> p in EntryPaths(arts[1..][i - 1]);
      r
  }

  /** _artifact_paths_from_contract: every non-blank path the "artifacts" list names, stripped. */
  function ArtifactPaths(c: Fields): (r: seq<string>)
    ensures !Field(c, "artifacts").JArr? ==> r == []
    ensures Field(c, "artifacts").JArr? ==>
              var arts := Field(c, "artifacts").items;
              forall p :: p in r <==> p != "" && exists i :: 0 <= i < |arts| && p in EntryPaths(arts[i])
  {
    match Field(c, "artifacts")
    case JArr(arts) => ArtifactListPaths(arts)
    case _ => []
  }

  /** str(artifact.get("type", "")).strip() */
  function ArtifactType(f: Fields): string {
    Strip(PyStr(GetOr(f, "type", JStr(""))))
  }

  /** [v.strip()] when v is a non-blank string, else nothing. */
  function StrippedStr(j: Json): (r: seq<string>)
    ensures forall v :: v in r ==> v != "" && IsStripped(v)
    ensures forall v :: v in r <==> v != "" && j.JStr? && Strip(j.s) == v
  {
    if j.JStr? && Strip(j.s) != "" then [Strip(j.s)] else []
  }

  /** `j` names `v`: it is a string that strips to `v`, or a list with such a string item. */
  predicate Names(j: Json, v: string) {
    if j.JArr? then exists k :: 0 <= k < |j.items| && j.items[k].JStr? && Strip(j.items[k].s) == v
    else j.JStr? && Strip(j.s) == v
  }

  /** The contribution of an artifact's "value": a non-blank string, or the non-blank strings
      of a list, stripped. */
  function ValueStrings(j: Json): (r: seq<string>)
    ensures forall v :: v in r ==> v != "" && IsStripped(v)
    ensures forall v :: v in r <==> v != "" && Names(j, v)
  {
    if j.JArr? then NonEmpty(StripStrings(j.items)) else StrippedStr(j)
  }

  /** The non-blank "path" and "value" strings of an artifact object of type `t`, stripped. */
  function TypedValues(a: Json, t: string): (r: seq<string>)
    ensures r != [] ==> a.JObj? && ArtifactType(a.fields) == t
    ensures forall v :: v in r ==> v != "" && IsStripped(v)
    ensures forall v :: v in r <==>
              a.JObj? && ArtifactType(a.fields) == t && v != "" &&
              ((Field(a.fields, "path").JStr? && Strip(Field(a.fields, "path").s) == v) ||
               Names(Field(a.fields, "value"), v))
  {
    if !a.JObj? || ArtifactType(a.fields) != t then []
    else StrippedStr(Field(a.fields, "path")) + ValueStrings(Field(a.fields, "value"))
  }

  function ValuesForType(arts: seq<Json>, t: string): (r: seq<string>)
    ensures forall v :: v in r ==> v != "" && IsStripped(v)
    ensures r != [] ==> exists i :: 0 <= i < |arts| && arts[i].JObj? && ArtifactType(arts[i].fields) == t
    ensures forall v :: v in r <==> exists i :: 0 <= i < |arts| && v in TypedValues(arts[i], t)
  {
    if |arts| == 0 then []
    else
      var r := TypedValues(arts[0], t) + ValuesForType(arts[1..], t);
      assert forall i :: 0 <= i < |arts| - 1 ==> arts[1..][i] == arts[i + 1];
      assert forall v, i :: 1 <= i < |arts| && v in TypedValues(arts[i], t) ==> v in TypedValues(arts[1..][i - 1], t);
      r
  }

  /** _artifact_values_for_type: only artifact objects whose "type" is `t` contribute; each
      contributes its non-blank "path" string and "value" strings, stripped. */
  function ArtifactValuesForType(c: Fields, t: string): (r: seq<string>)
    ensures forall v :: v in r ==> v != "" && IsStripped(v)
    ensures r != [] ==> Field(c, "artifacts").JArr? &&
                        exists a :: a in Field(c, "artifacts").items && a.JObj? && ArtifactType(a.fields) == t
    ensures !Field(c, "artifacts").JArr? ==> r == []
    ensures Field(c, "artifacts").JArr? ==>
              var arts := Field(c, "artifacts").items;
              forall v :: v in r <==> exists i :: 0 <= i < |arts| && v in TypedValues(arts[i], t)
  {
    match Field(c, "artifacts")
    case JArr(arts) => ValuesForType(arts, t)
    case _ => []
  }

  // ---------------------------------------------------------------- acceptance status

  datatype Acceptance = Unknown | Met | Partial | NotMet

  function AcceptanceName(a: Acceptance): string {
    match a
    case Unknown => "unknown"
    case Met => "met"
    case Partial => "partial"
    case NotMet => "not_met"
  }

  predicate MentionsFail(item: string) {
    var l := Lower(item);
    Contains(l, "fail") || Contains(l, "not met") || Contains(l, "blocked")
  }

  predicate MentionsPass(item: string) {
    Contains(Lower(item), "pass")
  }

  function AnyFail(items: seq<string>): (b: bool)
    ensures b <==> exists i :: 0 <= i < |items| && MentionsFail(items[i])
  {
    if |items| == 0 then false
    else
      assert forall i :: 0 <= i < |items| - 1 ==> items[1..][i] == items[i + 1];
      MentionsFail(items[0]) || AnyFail(items[1..])
  }

  function AnyPass(items: seq<string>): (b: bool)
    ensures b <==> exists i :: 0 <= i < |items| && MentionsPass(items[i])
  {
    if |items| == 0 then false
    else
      assert forall i :: 0 <= i < |items| - 1 ==> items[1..][i] == items[i + 1];
      MentionsPass(items[0]) || AnyPass(items[1..])
  }

  /** _infer_acceptance_status: "pass" anywhere with no failure marker is met, both is partial,
      failure markers alone are not met, and anything else (the empty list too) is unknown. */
  function InferAcceptanceStatus(items: seq<string>): (r: Acceptance)
    ensures r == Met <==> (exists i :: 0 <= i < |items| && MentionsPass(items[i])) &&
                          (forall i :: 0 <= i < |items| ==> !MentionsFail(items[i]))
    ensures r == Partial <==> (exists i :: 0 <= i < |items| && MentionsPass(items[i])) &&
                              (exists i :: 0 <= i < |items| && MentionsFail(items[i]))
    ensures r == NotMet <==> (forall i :: 0 <= i < |items| ==> !MentionsPass(items[i])) &&
                             (exists i :: 0 <= i < |items| && MentionsFail(items[i]))
    ensures r == Unknown <==> forall i :: 0 <= i < |items| ==> !MentionsPass(items[i]) && !MentionsFail(items[i])
  {
    if |items| == 0 then Unknown
    else
      var pass := AnyPass(items);
      var fail := AnyFail(items);
      if pass && !fail then Met
      else if pass && fail then Partial
      else if fail then NotMet
      else Unknown
  }

  // ---------------------------------------------------------------- validation

  const RequiredFields: seq<string> := ["task_id", "owner", "acceptance_criteria", "artifacts"]

  const AllowedStatus: set<string> := {
    "done", "needs_review", "needs_changes", "blocked", "needs_fix_format",
    "ready_for_handoff", "dispatched", "approved_or_changes_requested", "passed_or_failed"
  }

  /** The artifact paths a role's reply must list. */
  function RequiredArtifactPaths(role: string): seq<string> {
    if role == "concept" then ["docs/concept.md"]
    else if role == "game_design" then ["docs/game_design.md", "docs/balance_knobs.md"]
    else if role == "narrative" then ["docs/narrative.md", "assets/text/ui_copy.md"]
    else if role == "player_experience" then ["docs/ux_flow.md", "docs/ftue.md"]
    else []
  }

  const MissingFooter := "Missing JSON output contract footer."
  const MissingField := "Missing required field: "
  const TaskIdMismatch := "task_id mismatch: "
  const OwnerMismatch := "owner mismatch: "
  const InvalidStatus := "Invalid status: "
  const ArtifactsNotList := "artifacts must be a non-empty list"
  const AcceptanceNotList := "acceptance_criteria must be a non-empty list"
  const HandoffNotList := "handoff_to must be a non-empty list"
  const ActionsNotList := "next_role_action_items must be a non-empty list"
  const ActionsPrefix := "next_role_action_items"
  const ActionItem := "next_role_action_items["
  const MissingPath := "Missing required artifact path: "
  const MissingPathPrefix := "Missing required artifact path prefix: "
  const AnyMissingPath := "Missing required artifact path"

  /** Two messages whose texts differ at a position both reach never share a start. */
  lemma {:induction false} Disjoint(e: string, p: string, q: string, k: nat)
    requires k < |p| && k < |q| && p[k] != q[k]
    ensures !(StartsWith(e, p) && StartsWith(e, q))
  {
    if |p| <= |e| && |q| <= |e| {
      assert e[..|p|][k] == e[k] == e[..|q|][k];
    }
  }

  lemma {:induction false} PrefixCancel(p: string, a: string, b: string)
    requires p + a == p + b
    ensures a == b
  {
    assert a == (p + a)[|p|..];
  }

  predicate StartsAll(r: seq<string>, p: string) {
    forall e :: e in r ==> StartsWith(e, p)
  }

  /** Some error in `errors` starts with `p`. */
  predicate Reports(errors: seq<string>, p: string) {
    exists e :: e in errors && StartsWith(e, p)
  }

  function MissingFieldErrors(c: Fields, fields: seq<string>): (r: seq<string>)
    ensures StartsAll(r, MissingField)
    ensures r == [] <==> forall f :: f in fields ==> Has(c, f)
  {
    if |fields| == 0 then []
    else
      (if Has(c, fields[0]) then [] else [MissingField + fields[0]]) + MissingFieldErrors(c, fields[1..])
  }

  lemma {:induction false} MissingFieldErrorsExact(c: Fields, fields: seq<string>, f: string)
    ensures MissingField + f in MissingFieldErrors(c, fields) <==> f in fields && !Has(c, f)
  {
    if |fields| > 0 {
      MissingFieldErrorsExact(c, fields[1..], f);
      if MissingField + f == MissingField + fields[0] {
        PrefixCancel(MissingField, f, fields[0]);
      }
      assert fields == [fields[0]] + fields[1..];
    }
  }

  /** The task_id the contract declares, as str(contract.get("task_id", "")). */
  function DeclaredTaskId(c: Fields): string {
    PyStr(GetOr(c, "task_id", JStr("")))
  }

  function DeclaredOwner(c: Fields): string {
    PyStr(GetOr(c, "owner", JStr("")))
  }

  /** str(contract.get("status", "done")).strip() */
  function DeclaredStatus(c: Fields): string {
    Strip(PyStr(GetOr(c, "status", JStr("done"))))
  }

  function TaskIdErrors(c: Fields, taskId: string): (r: seq<string>)
    ensures StartsAll(r, TaskIdMismatch)
    ensures r == [] <==> DeclaredTaskId(c) == "" || DeclaredTaskId(c) == taskId
  {
    var t := DeclaredTaskId(c);
    if t != "" && t != taskId then [TaskIdMismatch + "expected " + taskId + ", got " + t] else []
  }

  function OwnerErrors(c: Fields, role: string): (r: seq<string>)
    ensures StartsAll(r, OwnerMismatch)
    ensures r == [] <==> DeclaredOwner(c) == "" || DeclaredOwner(c) == role
  {
    var o := DeclaredOwner(c);
    if o != "" && o != role then [OwnerMismatch + "expected " + role + ", got " + o] else []
  }

  function StatusErrors(c: Fields): (r: seq<string>)
    ensures StartsAll(r, InvalidStatus)
    ensures r == [] <==> DeclaredStatus(c) == "" || DeclaredStatus(c) in AllowedStatus
  {
    var st := DeclaredStatus(c);
    if st != "" && st !in AllowedStatus then [InvalidStatus + st] else []
  }

  function ListError(c: Fields, key: string, message: string): (r: seq<string>)
    ensures StartsAll(r, message)
    ensures r == [] <==> IsNonEmptyList(Field(c, key))
    ensures r != [] ==> r == [message]
  {
    if IsNonEmptyList(Field(c, key)) then [] else [message]
  }

  /** One well-formed entry of next_role_action_items. */
  predicate ActionItemValid(a: Json) {
    a.JObj? && IsNonBlankStr(Field(a.fields, "role")) && IsNonEmptyList(Field(a.fields, "items")) &&
    forall x :: x in Field(a.fields, "items").items ==> IsNonBlankStr(x)
  }

  function AllNonBlankStr(xs: seq<Json>): (b: bool)
    ensures b <==> forall x :: x in xs ==> IsNonBlankStr(x)
  {
    if |xs| == 0 then true else IsNonBlankStr(xs[0]) && AllNonBlankStr(xs[1..])
  }

  /** The errors for entry number `idx` (counting from 1). */
  function ActionItemErrors(a: Json, idx: nat): (r: seq<string>)
    ensures StartsAll(r, ActionItem)
    ensures r == [] <==> ActionItemValid(a)
  {
    var n := ActionItem + NatToString(idx);
    if !a.JObj? then [n + "] must be an object"]
    else
      var role := Field(a.fields, "role");
      var items := Field(a.fields, "items");
      (if !IsNonBlankStr(role) then [n + "].role must be a non-empty string"] else []) +
      (if !IsNonEmptyList(items) then [n + "].items must be a non-empty list"]
       else if !AllNonBlankStr(items.items) then [n + "].items must contain non-empty strings"]
       else [])
  }

  function ActionListErrors(items: seq<Json>, idx: nat): (r: seq<string>)
    ensures StartsAll(r, ActionItem)
    ensures r == [] <==> forall a :: a in items ==> ActionItemValid(a)
  {
    if |items| == 0 then []
    else
      ActionItemErrors(items[0], idx) + ActionListErrors(items[1..], idx + 1)
  }

  /** next_role_action_items: its shape, then each entry. */
  function ActionErrors(c: Fields): (r: seq<string>)
    ensures StartsAll(r, ActionsPrefix)
    ensures Reports(r, ActionsNotList) <==> !IsNonEmptyList(Field(c, ActionsPrefix))
    ensures r == [] <==> IsNonEmptyList(Field(c, ActionsPrefix)) &&
                         forall a :: a in Field(c, ActionsPrefix).items ==> ActionItemValid(a)
  {
    var v := Field(c, ActionsPrefix);
    if !IsNonEmptyList(v) then
      assert ActionsNotList in [ActionsNotList];
      [ActionsNotList]
    else
      var r := ActionListErrors(v.items, 1);
      NoReports(r, ActionItem, ActionsNotList, 22);
      StartsAllShorter(r, ActionItem, ActionsPrefix);
      r
  }

  /** A required path is present verbatim, or as a prefix when it ends in "/". */
  predicate PathSatisfied(required: string, paths: seq<string>) {
    if EndsWith(required, "/") then exists p :: p in paths && StartsWith(p, required)
    else required in paths
  }

  function PathError(required: string, paths: seq<string>): (r: seq<string>)
    ensures r == [] <==> PathSatisfied(required, paths)
  {
    if EndsWith(required, "/") then
      if exists p :: p in paths && StartsWith(p, required) then [] else [MissingPathPrefix + required]
    else if required in paths then []
    else [MissingPath + required]
  }

  function PathErrors(required: seq<string>, paths: seq<string>): (r: seq<string>)
    ensures StartsAll(r, AnyMissingPath)
    ensures r == [] <==> forall q :: q in required ==> PathSatisfied(q, paths)
  {
    if |required| == 0 then []
    else PathError(required[0], paths) + PathErrors(required[1..], paths)
  }

  /** The checks run once a non-empty contract is present, in the order they are reported. */
  function ContractErrors(role: string, taskId: string, c: Fields): seq<string> {
    MissingFieldErrors(c, RequiredFields) + TaskIdErrors(c, taskId) + OwnerErrors(c, role) +
    StatusErrors(c) +
    ListError(c, "artifacts", ArtifactsNotList) + ListError(c, "acceptance_criteria", AcceptanceNotList) +
    ListError(c, "handoff_to", HandoffNotList) + ActionErrors(c) +
    PathErrors(RequiredArtifactPaths(role), ArtifactPaths(c))
  }

  /** validate_output_contract: a missing or empty contract yields exactly one error. */
  function ValidateOutputContract(role: string, taskId: string, contract: Option<Fields>): (r: seq<string>)
    ensures contract.None? || contract.value == [] ==> r == [MissingFooter]
  {
    if contract.None? || |contract.value| == 0 then [MissingFooter]
    else ContractErrors(role, taskId, contract.value)
  }

  /** What a valid contract is, stated check by check. */
  predicate ContractValid(role: string, taskId: string, c: Fields) {
    |c| > 0 &&
    (forall f :: f in RequiredFields ==> Has(c, f)) &&
    (DeclaredTaskId(c) == "" || DeclaredTaskId(c) == taskId) &&
    (DeclaredOwner(c) == "" || DeclaredOwner(c) == role) &&
    (DeclaredStatus(c) == "" || DeclaredStatus(c) in AllowedStatus) &&
    IsNonEmptyList(Field(c, "artifacts")) &&
    IsNonEmptyList(Field(c, "acceptance_criteria")) &&
    IsNonEmptyList(Field(c, "handoff_to")) &&
    IsNonEmptyList(Field(c, ActionsPrefix)) &&
    (forall a :: a in Field(c, ActionsPrefix).items ==> ActionItemValid(a)) &&
    (forall q :: q in RequiredArtifactPaths(role) ==> PathSatisfied(q, ArtifactPaths(c)))
  }

  lemma {:induction false} ValidateOutputContractEmptyIff(role: string, taskId: string, contract: Option<Fields>)
    ensures ValidateOutputContract(role, taskId, contract) == [] <==>
            contract.Some? && ContractValid(role, taskId, contract.value)
  {
  }

  /** The characters that tell the messages apart. */
  lemma {:induction false} MessageHeads()
    ensures MissingField[0] == 'M' && MissingField[17] == 'f'
    ensures AnyMissingPath[0] == 'M' && AnyMissingPath[17] == 'a'
    ensures TaskIdMismatch[0] == 't' && OwnerMismatch[0] == 'o' && InvalidStatus[0] == 'I'
    ensures ArtifactsNotList[0] == 'a' && ArtifactsNotList[1] == 'r'
    ensures AcceptanceNotList[0] == 'a' && AcceptanceNotList[1] == 'c'
    ensures HandoffNotList[0] == 'h' && ActionsNotList[0] == 'n' && ActionsPrefix[0] == 'n'
  {
  }

  lemma {:induction false} NotIn(r: seq<string>, q: string, x: string, p: string, k: nat)
    requires StartsAll(r, q) && StartsWith(x, p)
    requires k < |p| && k < |q| && p[k] != q[k]
    ensures x !in r
  {
    if x in r {
      Disjoint(x, p, q, k);
    }
  }

  /** Errors that all start with `p` also all start with any prefix `q` of `p`. */
  lemma {:induction false} StartsAllShorter(r: seq<string>, p: string, q: string)
    requires StartsAll(r, p) && StartsWith(p, q)
    ensures StartsAll(r, q)
  {
    forall e | e in r
      ensures StartsWith(e, q)
    {
      assert e[..|q|] == e[..|p|][..|q|];
    }
  }

  lemma {:induction false} NoReports(r: seq<string>, q: string, p: string, k: nat)
    requires StartsAll(r, q)
    requires k < |p| && k < |q| && p[k] != q[k]
    ensures !Reports(r, p)
  {
    forall e | e in r
      ensures !StartsWith(e, p)
    {
      Disjoint(e, p, q, k);
    }
  }

  lemma {:induction false} ReportsConcat(a: seq<string>, b: seq<string>, p: string)
    ensures Reports(a + b, p) <==> Reports(a, p) || Reports(b, p)
  {
    if Reports(a + b, p) {
      var e :| e in a + b && StartsWith(e, p);
    }
  }

  /** Each required field that is absent is reported by name, and no other one is. */
  lemma {:induction false} MissingFieldReported(role: string, taskId: string, c: Fields, f: string)
    requires |c| > 0
    ensures MissingField + f in ValidateOutputContract(role, taskId, Some(c)) <==>
            f in RequiredFields && !Has(c, f)
  {
    MessageHeads();
    var x := MissingField + f;
    assert StartsWith(x, MissingField);
    NotIn(TaskIdErrors(c, taskId), TaskIdMismatch, x, MissingField, 0);
    NotIn(OwnerErrors(c, role), OwnerMismatch, x, MissingField, 0);
    NotIn(StatusErrors(c), InvalidStatus, x, MissingField, 0);
    NotIn(ListError(c, "artifacts", ArtifactsNotList), ArtifactsNotList, x, MissingField, 0);
    NotIn(ListError(c, "acceptance_criteria", AcceptanceNotList), AcceptanceNotList, x, MissingField, 0);
    NotIn(ListError(c, "handoff_to", HandoffNotList), HandoffNotList, x, MissingField, 0);
    NotIn(ActionErrors(c), ActionsPrefix, x, MissingField, 0);
    NotIn(PathErrors(RequiredArtifactPaths(role), ArtifactPaths(c)), AnyMissingPath, x, MissingField, 17);
    MissingFieldErrorsExact(c, RequiredFields, f);
    InAcross(role, taskId, c, x);
  }

  /** A task_id mismatch is reported exactly when the declared task_id is non-empty and differs. */
  lemma {:induction false} TaskIdMismatchReported(role: string, taskId: string, c: Fields)
    requires |c| > 0
    ensures Reports(ValidateOutputContract(role, taskId, Some(c)), TaskIdMismatch) <==>
            DeclaredTaskId(c) != "" && DeclaredTaskId(c) != taskId
  {
    MessageHeads();
    var p := TaskIdMismatch;
    NoReports(MissingFieldErrors(c, RequiredFields), MissingField, p, 0);
    NoReports(OwnerErrors(c, role), OwnerMismatch, p, 0);
    NoReports(StatusErrors(c), InvalidStatus, p, 0);
    NoReports(ListError(c, "artifacts", ArtifactsNotList), ArtifactsNotList, p, 0);
    NoReports(ListError(c, "acceptance_criteria", AcceptanceNotList), AcceptanceNotList, p, 0);
    NoReports(ListError(c, "handoff_to", HandoffNotList), HandoffNotList, p, 0);
    NoReports(ActionErrors(c), ActionsPrefix, p, 0);
    NoReports(PathErrors(RequiredArtifactPaths(role), ArtifactPaths(c)), AnyMissingPath, p, 0);
    ReportsAcross(role, taskId, c, p);
    var t := TaskIdErrors(c, taskId);
    if t != [] {
      assert t[0] in t;
    }
  }

  /** An owner mismatch is reported exactly when the declared owner is non-empty and differs. */
  lemma {:induction false} OwnerMismatchReported(role: string, taskId: string, c: Fields)
    requires |c| > 0
    ensures Reports(ValidateOutputContract(role, taskId, Some(c)), OwnerMismatch) <==>
            DeclaredOwner(c) != "" && DeclaredOwner(c) != role
  {
    MessageHeads();
    var p := OwnerMismatch;
    NoReports(MissingFieldErrors(c, RequiredFields), MissingField, p, 0);
    NoReports(TaskIdErrors(c, taskId), TaskIdMismatch, p, 0);
    NoReports(StatusErrors(c), InvalidStatus, p, 0);
    NoReports(ListError(c, "artifacts", ArtifactsNotList), ArtifactsNotList, p, 0);
    NoReports(ListError(c, "acceptance_criteria", AcceptanceNotList), AcceptanceNotList, p, 0);
    NoReports(ListError(c, "handoff_to", HandoffNotList), HandoffNotList, p, 0);
    NoReports(ActionErrors(c), ActionsPrefix, p, 0);
    NoReports(PathErrors(RequiredArtifactPaths(role), ArtifactPaths(c)), AnyMissingPath, p, 0);
    ReportsAcross(role, taskId, c, p);
    var o := OwnerErrors(c, role);
    if o != [] {
      assert o[0] in o;
    }
  }

  /** "artifacts must be a non-empty list" is reported exactly when artifacts is not a non-empty list. */
  lemma {:induction false} ArtifactsListReported(role: string, taskId: string, c: Fields)
    requires |c| > 0
    ensures ArtifactsNotList in ValidateOutputContract(role, taskId, Some(c)) <==> !IsNonEmptyList(Field(c, "artifacts"))
  {
    MessageHeads();
    assert StartsWith(ArtifactsNotList, ArtifactsNotList);
    NotIn(MissingFieldErrors(c, RequiredFields), MissingField, ArtifactsNotList, ArtifactsNotList, 0);
    NotIn(TaskIdErrors(c, taskId), TaskIdMismatch, ArtifactsNotList, ArtifactsNotList, 0);
    NotIn(OwnerErrors(c, role), OwnerMismatch, ArtifactsNotList, ArtifactsNotList, 0);
    NotIn(StatusErrors(c), InvalidStatus, ArtifactsNotList, ArtifactsNotList, 0);
    NotIn(ListError(c, "acceptance_criteria", AcceptanceNotList), AcceptanceNotList, ArtifactsNotList, ArtifactsNotList, 1);
    NotIn(ListError(c, "handoff_to", HandoffNotList), HandoffNotList, ArtifactsNotList, ArtifactsNotList, 0);
    NotIn(ActionErrors(c), ActionsPrefix, ArtifactsNotList, ArtifactsNotList, 0);
    NotIn(PathErrors(RequiredArtifactPaths(role), ArtifactPaths(c)), AnyMissingPath, ArtifactsNotList, ArtifactsNotList, 0);
    InAcross(role, taskId, c, ArtifactsNotList);
  }

  /** The same rule for acceptance_criteria. */
  lemma {:induction false} AcceptanceListReported(role: string, taskId: string, c: Fields)
    requires |c| > 0
    ensures AcceptanceNotList in ValidateOutputContract(role, taskId, Some(c)) <==> !IsNonEmptyList(Field(c, "acceptance_criteria"))
  {
    MessageHeads();
    assert StartsWith(AcceptanceNotList, AcceptanceNotList);
    NotIn(MissingFieldErrors(c, RequiredFields), MissingField, AcceptanceNotList, AcceptanceNotList, 0);
    NotIn(TaskIdErrors(c, taskId), TaskIdMismatch, AcceptanceNotList, AcceptanceNotList, 0);
    NotIn(OwnerErrors(c, role), OwnerMismatch, AcceptanceNotList, AcceptanceNotList, 0);
    NotIn(StatusErrors(c), InvalidStatus, AcceptanceNotList, AcceptanceNotList, 0);
    NotIn(ListError(c, "artifacts", ArtifactsNotList), ArtifactsNotList, AcceptanceNotList, AcceptanceNotList, 1);
    NotIn(ListError(c, "handoff_to", HandoffNotList), HandoffNotList, AcceptanceNotList, AcceptanceNotList, 0);
    NotIn(ActionErrors(c), ActionsPrefix, AcceptanceNotList, AcceptanceNotList, 0);
    NotIn(PathErrors(RequiredArtifactPaths(role), ArtifactPaths(c)), AnyMissingPath, AcceptanceNotList, AcceptanceNotList, 0);
    InAcross(role, taskId, c, AcceptanceNotList);
  }

  /** The same rule for handoff_to. */
  lemma {:induction false} HandoffListReported(role: string, taskId: string, c: Fields)
    requires |c| > 0
    ensures HandoffNotList in ValidateOutputContract(role, taskId, Some(c)) <==> !IsNonEmptyList(Field(c, "handoff_to"))
  {
    MessageHeads();
    assert StartsWith(HandoffNotList, HandoffNotList);
    NotIn(MissingFieldErrors(c, RequiredFields), MissingField, HandoffNotList, HandoffNotList, 0);
    NotIn(TaskIdErrors(c, taskId), TaskIdMismatch, HandoffNotList, HandoffNotList, 0);
    NotIn(OwnerErrors(c, role), OwnerMismatch, HandoffNotList, HandoffNotList, 0);
    NotIn(StatusErrors(c), InvalidStatus, HandoffNotList, HandoffNotList, 0);
    NotIn(ListError(c, "artifacts", ArtifactsNotList), ArtifactsNotList, HandoffNotList, HandoffNotList, 0);
    NotIn(ListError(c, "acceptance_criteria", AcceptanceNotList), AcceptanceNotList, HandoffNotList, HandoffNotList, 0);
    NotIn(ActionErrors(c), ActionsPrefix, HandoffNotList, HandoffNotList, 0);
    NotIn(PathErrors(RequiredArtifactPaths(role), ArtifactPaths(c)), AnyMissingPath, HandoffNotList, HandoffNotList, 0);
    InAcross(role, taskId, c, HandoffNotList);
  }

  /** The same rule for next_role_action_items, whose entries are checked only once it is a
      non-empty list. */
  lemma {:induction false} ActionsListReported(role: string, taskId: string, c: Fields)
    requires |c| > 0
    ensures Reports(ValidateOutputContract(role, taskId, Some(c)), ActionsNotList) <==>
            !IsNonEmptyList(Field(c, ActionsPrefix))
  {
    MessageHeads();
    NoReports(MissingFieldErrors(c, RequiredFields), MissingField, ActionsNotList, 0);
    NoReports(TaskIdErrors(c, taskId), TaskIdMismatch, ActionsNotList, 0);
    NoReports(OwnerErrors(c, role), OwnerMismatch, ActionsNotList, 0);
    NoReports(StatusErrors(c), InvalidStatus, ActionsNotList, 0);
    NoReports(ListError(c, "artifacts", ArtifactsNotList), ArtifactsNotList, ActionsNotList, 0);
    NoReports(ListError(c, "acceptance_criteria", AcceptanceNotList), AcceptanceNotList, ActionsNotList, 0);
    NoReports(ListError(c, "handoff_to", HandoffNotList), HandoffNotList, ActionsNotList, 0);
    NoReports(PathErrors(RequiredArtifactPaths(role), ArtifactPaths(c)), AnyMissingPath, ActionsNotList, 0);
    ReportsAcross(role, taskId, c, ActionsNotList);
  }

  /** Membership distributes over the parts of the contract checks. */
  lemma {:induction false} InAcross(role: string, taskId: string, c: Fields, x: string)
    requires |c| > 0
    ensures x in ValidateOutputContract(role, taskId, Some(c)) <==>
            x in MissingFieldErrors(c, RequiredFields) || x in TaskIdErrors(c, taskId) ||
            x in OwnerErrors(c, role) || x in StatusErrors(c) ||
            x in ListError(c, "artifacts", ArtifactsNotList) ||
            x in ListError(c, "acceptance_criteria", AcceptanceNotList) ||
            x in ListError(c, "handoff_to", HandoffNotList) || x in ActionErrors(c) ||
            x in PathErrors(RequiredArtifactPaths(role), ArtifactPaths(c))
  {
  }

  /** Reports distributes over the parts of the contract checks. */
  lemma {:induction false} ReportsAcross(role: string, taskId: string, c: Fields, p: string)
    requires |c| > 0
    ensures Reports(ValidateOutputContract(role, taskId, Some(c)), p) <==>
            Reports(MissingFieldErrors(c, RequiredFields), p) || Reports(TaskIdErrors(c, taskId), p) ||
            Reports(OwnerErrors(c, role), p) || Reports(StatusErrors(c), p) ||
            Reports(ListError(c, "artifacts", ArtifactsNotList), p) ||
            Reports(ListError(c, "acceptance_criteria", AcceptanceNotList), p) ||
            Reports(ListError(c, "handoff_to", HandoffNotList), p) || Reports(ActionErrors(c), p) ||
            Reports(PathErrors(RequiredArtifactPaths(role), ArtifactPaths(c)), p)
  {
    var m := MissingFieldErrors(c, RequiredFields);
    var t := TaskIdErrors(c, taskId);
    var o := OwnerErrors(c, role);
    var st := StatusErrors(c);
    var la := ListError(c, "artifacts", ArtifactsNotList);
    var lc := ListError(c, "acceptance_criteria", AcceptanceNotList);
    var lh := ListError(c, "handoff_to", HandoffNotList);
    var na := ActionErrors(c);
    var pe := PathErrors(RequiredArtifactPaths(role), ArtifactPaths(c));
    ReportsConcat(m, t, p);
    ReportsConcat(m + t, o, p);
    ReportsConcat(m + t + o, st, p);
    ReportsConcat(m + t + o + st, la, p);
    ReportsConcat(m + t + o + st + la, lc, p);
    ReportsConcat(m + t + o + st + la + lc, lh, p);
    ReportsConcat(m + t + o + st + la + lc + lh, na, p);
    ReportsConcat(m + t + o + st + la + lc + lh + na, pe, p);
  }

  /** A required path of the role is reported missing exactly when it is absent from the
      contract's artifact paths (the "/"-suffixed ones are matched as prefixes instead). */
  lemma {:induction false} PathErrorsExact(required: seq<string>, paths: seq<string>, q: string)
    ensures MissingPath + q in PathErrors(required, paths) <==>
            q in required && !EndsWith(q, "/") && q !in paths
  {
    if |required| > 0 {
      PathErrorsExact(required[1..], paths, q);
      var h := required[0];
      var x := MissingPath + q;
      if x == MissingPath + h {
        PrefixCancel(MissingPath, q, h);
      }
      assert x != MissingPathPrefix + h by {
        assert x[30] == MissingPath[30] != (MissingPathPrefix + h)[30];
      }
      assert required == [h] + required[1..];
    }
  }

  lemma {:induction false} RequiredPathReported(role: string, taskId: string, c: Fields, q: string)
    requires |c| > 0
    ensures MissingPath + q in ValidateOutputContract(role, taskId, Some(c)) <==>
            q in RequiredArtifactPaths(role) && !EndsWith(q, "/") && q !in ArtifactPaths(c)
  {
    MessageHeads();
    var x := MissingPath + q;
    var p := MissingPath;
    assert StartsWith(x, p);
    NotIn(MissingFieldErrors(c, RequiredFields), MissingField, x, p, 17);
    NotIn(TaskIdErrors(c, taskId), TaskIdMismatch, x, p, 0);
    NotIn(OwnerErrors(c, role), OwnerMismatch, x, p, 0);
    NotIn(StatusErrors(c), InvalidStatus, x, p, 0);
    NotIn(ListError(c, "artifacts", ArtifactsNotList), ArtifactsNotList, x, p, 0);
    NotIn(ListError(c, "acceptance_criteria", AcceptanceNotList), AcceptanceNotList, x, p, 0);
    NotIn(ListError(c, "handoff_to", HandoffNotList), HandoffNotList, x, p, 0);
    NotIn(ActionErrors(c), ActionsPrefix, x, p, 0);
    PathErrorsExact(RequiredArtifactPaths(role), ArtifactPaths(c), q);
    InAcross(role, taskId, c, x);
  }

  // ---------------------------------------------------------------- report sections

  const ReportSections: seq<(string, seq<string>)> := [
    ("task meta", ["## task meta", "### task meta", "### task status summary"]),
    ("acceptance criteria", ["## acceptance criteria", "### acceptance criteria"]),
    ("artifacts", ["## artifacts", "### artifacts", "### required artifacts"]),
    ("handoff", ["## handoff", "### handoff", "### handoff instructions"])
  ]

  const MissingSection := "Missing report section: "

  /** Some alternative heading of a section occurs in the lowered message. */
  predicate SectionPresent(lowered: string, alternatives: seq<string>) {
    exists o :: o in alternatives && Contains(lowered, o)
  }

  function AnyContained(lowered: string, alternatives: seq<string>): (b: bool)
    ensures b <==> SectionPresent(lowered, alternatives)
  {
    if |alternatives| == 0 then false
    else
      assert alternatives == [alternatives[0]] + alternatives[1..];
      Contains(lowered, alternatives[0]) || AnyContained(lowered, alternatives[1..])
  }

  function SectionErrors(lowered: string, sections: seq<(string, seq<string>)>): (r: seq<string>)
    ensures StartsAll(r, MissingSection)
    ensures r == [] <==> forall k :: 0 <= k < |sections| ==> SectionPresent(lowered, sections[k].1)
  {
    if |sections| == 0 then []
    else
      var r := (if AnyContained(lowered, sections[0].1) then [] else [MissingSection + sections[0].0]) +
               SectionErrors(lowered, sections[1..]);
      assert forall k :: 0 <= k < |sections| - 1 ==> sections[1..][k] == sections[k + 1];
      r
  }

  lemma {:induction false} SectionErrorsExact(lowered: string, sections: seq<(string, seq<string>)>, name: string)
    ensures MissingSection + name in SectionErrors(lowered, sections) <==>
            exists k :: 0 <= k < |sections| && sections[k].0 == name && !SectionPresent(lowered, sections[k].1)
  {
    if |sections| > 0 {
      SectionErrorsExact(lowered, sections[1..], name);
      if MissingSection + name == MissingSection + sections[0].0 {
        PrefixCancel(MissingSection, name, sections[0].0);
      }
      assert forall k :: 0 <= k < |sections| - 1 ==> sections[1..][k] == sections[k + 1];
      if exists k :: 0 <= k < |sections| && sections[k].0 == name && !SectionPresent(lowered, sections[k].1) {
        var k :| 0 <= k < |sections| && sections[k].0 == name && !SectionPresent(lowered, sections[k].1);
        if k > 0 {
          assert sections[1..][k - 1] == sections[k];
        }
      }
    }
  }

  /** validate_report_structure: one error per section none of whose headings occurs in the
      message, compared without letter case. */
  function ValidateReportStructure(message: string): (r: seq<string>)
    ensures StartsAll(r, MissingSection)
    ensures r == [] <==> forall k :: 0 <= k < |ReportSections| ==> SectionPresent(Lower(message), ReportSections[k].1)
    ensures forall name :: MissingSection + name in r <==>
              exists k :: 0 <= k < |ReportSections| && ReportSections[k].0 == name &&
                          !SectionPresent(Lower(message), ReportSections[k].1)
  {
    var r := SectionErrors(Lower(message), ReportSections);
    forall name
      ensures MissingSection + name in r <==>
              exists k :: 0 <= k < |ReportSections| && ReportSections[k].0 == name &&
                          !SectionPresent(Lower(message), ReportSections[k].1)
    {
      SectionErrorsExact(Lower(message), ReportSections, name);
    }
    r
  }

  /** validate_task_output: the contract errors followed by the section errors. */
  function ValidateTaskOutput(role: string, taskId: string, message: string, contract: Option<Fields>): (r: seq<string>)
    ensures r == [] <==> contract.Some? && ContractValid(role, taskId, contract.value) &&
                         forall k :: 0 <= k < |ReportSections| ==> SectionPresent(Lower(message), ReportSections[k].1)
  {
    ValidateOutputContractEmptyIff(role, taskId, contract);
    ValidateOutputContract(role, taskId, contract) + ValidateReportStructure(message)
  }

  // ---------------------------------------------------------------- compression footer

  /** The JSON footer of the task compression summary. */
  datatype Footer = Footer(
    taskId: string,
    kind: string,
    artifacts: seq<string>,
    validation: seq<string>,
    acceptanceStatus: Acceptance,
    risks: seq<string>,
    openQuestions: seq<string>,
    nextOwner: string,
    nextActions: seq<string>)

  const FallbackAction := "Follow stage template and acceptance criteria."

  /** [item for item in v if isinstance(item, str)] for a list, else []. */
  function Strings(v: Json): (r: seq<string>)
    ensures v.JArr? ==> |r| <= |v.items|
  {
    if v.JArr? then StringsOf(v.items) else []
  }

  function StringsOf(xs: seq<Json>): (r: seq<string>)
    ensures |r| <= |xs|
  {
    if |xs| == 0 then [] else (if xs[0].JStr? then [xs[0].s] else []) + StringsOf(xs[1..])
  }

  /** The non-blank strings of a list value, unstripped. */
  function NonBlankStrings(v: Json): (r: seq<string>)
    ensures forall x :: x in r ==> !IsBlank(x)
  {
    if v.JArr? then NonBlankOf(v.items) else []
  }

  function NonBlankOf(xs: seq<Json>): (r: seq<string>)
    ensures forall x :: x in r ==> !IsBlank(x)
    ensures r == [] <==> forall x :: x in xs ==> !IsNonBlankStr(x)
    ensures r != [] ==> exists i :: 0 <= i < |xs| && xs[i] == JStr(r[0]) &&
                                    forall j :: 0 <= j < i ==> !IsNonBlankStr(xs[j])
  {
    if |xs| == 0 then []
    else
      var rest := NonBlankOf(xs[1..]);
      assert forall j :: 0 <= j < |xs| - 1 ==> xs[1..][j] == xs[j + 1];
      assert xs == [xs[0]] + xs[1..];
      (if IsNonBlankStr(xs[0]) then [xs[0].s] else []) + rest
  }

  function Take<T>(xs: seq<T>, n: nat): (r: seq<T>)
    ensures |r| <= n && |r| <= |xs| && r == xs[..|r|]
    ensures |xs| >= n ==> |r| == n
    ensures |xs| < n ==> r == xs
  {
    if |xs| <= n then xs else xs[..n]
  }

  /** The actions one next_role_action_items entry contributes: none unless it is an object
      whose role is the next owner (any object while there is no owner), else its non-blank
      item strings, stripped. */
  function EntryActions(e: Json, owner: string): (r: seq<string>)
    ensures r != [] ==> e.JObj? && (owner == "" || Get(e.fields, "role") == Some(JStr(owner)))
    ensures forall x :: x in r ==> x != "" && IsStripped(x)
    ensures forall x :: x in r <==>
              e.JObj? && (owner == "" || Get(e.fields, "role") == Some(JStr(owner))) &&
              Field(e.fields, "items").JArr? && x != "" && Names(Field(e.fields, "items"), x)
  {
    if !e.JObj? then []
    else if owner != "" && Get(e.fields, "role") != Some(JStr(owner)) then []
    else
      var items := Field(e.fields, "items");
      if items.JArr? then NonEmpty(StripStrings(items.items)) else []
  }

  function ActionsFrom(entries: seq<Json>, owner: string): (r: seq<string>)
    ensures forall x :: x in r ==> x != "" && IsStripped(x)
  {
    if |entries| == 0 then [] else EntryActions(entries[0], owner) + ActionsFrom(entries[1..], owner)
  }

  /** The actions collected are exactly those some entry contributes. */
  lemma {:induction false} ActionsFromMembers(entries: seq<Json>, owner: string)
    ensures forall x :: x in ActionsFrom(entries, owner) <==>
              exists i :: 0 <= i < |entries| && x in EntryActions(entries[i], owner)
    decreases |entries|
  {
    if |entries| > 0 {
      var rest := entries[1..];
      ActionsFromMembers(rest, owner);
      forall x
        ensures x in ActionsFrom(entries, owner) <==> exists i :: 0 <= i < |entries| && x in EntryActions(entries[i], owner)
      {
        if x in ActionsFrom(rest, owner) {
          var j :| 0 <= j < |rest| && x in EntryActions(rest[j], owner);
          assert entries[j + 1] == rest[j];
        }
        if exists i :: 0 <= i < |entries| && x in EntryActions(entries[i], owner) {
          var i :| 0 <= i < |entries| && x in EntryActions(entries[i], owner);
          if i > 0 {
            assert rest[i - 1] == entries[i];
          }
        }
      }
    }
  }

  /** No action is collected exactly when no entry contributes one. */
  lemma {:induction false} ActionsFromEmpty(entries: seq<Json>, owner: string)
    ensures ActionsFrom(entries, owner) == [] <==> forall i :: 0 <= i < |entries| ==> EntryActions(entries[i], owner) == []
    decreases |entries|
  {
    if |entries| > 0 {
      var rest := entries[1..];
      ActionsFromEmpty(rest, owner);
      assert forall i :: 1 <= i < |entries| ==> entries[i] == rest[i - 1];
      assert forall i :: 0 <= i < |rest| ==> rest[i] == entries[i + 1];
    }
  }

  /** The next actions: the owner's items, or the one fallback action when there are none. */
  function NextActions(c: Fields, owner: string): (r: seq<string>)
    ensures |r| >= 1
    ensures var v := Field(c, "next_role_action_items");
            (!v.JArr? || forall i :: 0 <= i < |v.items| ==> EntryActions(v.items[i], owner) == []) ==>
              r == [FallbackAction]
    ensures r == [FallbackAction] ||
            (Field(c, "next_role_action_items").JArr? &&
             forall x :: x in r ==>
               (x != "" && IsStripped(x) &&
                exists i :: 0 <= i < |Field(c, "next_role_action_items").items| &&
                            x in EntryActions(Field(c, "next_role_action_items").items[i], owner)))
    ensures var v := Field(c, "next_role_action_items");
            (v.JArr? && exists i :: 0 <= i < |v.items| && EntryActions(v.items[i], owner) != []) ==>
              forall x :: x in r <==> exists i :: 0 <= i < |v.items| && x in EntryActions(v.items[i], owner)
  {
    var v := Field(c, "next_role_action_items");
    var found := if v.JArr? then ActionsFrom(v.items, owner) else [];
    if v.JArr? then ActionsFromMembers(v.items, owner); ActionsFromEmpty(v.items, owner); if found == [] then [FallbackAction] else found
    else [FallbackAction]
  }

  /** The footer written by build_task_compression_summary for a task and its contract. */
  function CompressionFooter(taskId: string, c: Fields): Footer {
    var tid := if taskId != "" then taskId
               else if Truthy(Field(c, "task_id")) then PyStr(Field(c, "task_id"))
               else "";
    var commands := ArtifactValuesForType(c, "commands");
    var validation := if commands != [] then commands else ArtifactValuesForType(c, "validation");
    var handoff := NonBlankStrings(Field(c, "handoff_to"));
    var owner := if handoff != [] then handoff[0] else "";
    Footer(
      tid, "compression_summary", ArtifactPaths(c), validation,
      InferAcceptanceStatus(Strings(Field(c, "acceptance_criteria"))),
      Take(NonBlankStrings(Field(c, "risks")), 3),
      Take(NonBlankStrings(Field(c, "open_questions")), 3),
      owner, NextActions(c, owner))
  }

  /** The next owner is the first non-blank string of handoff_to, kept as written, and empty
      exactly when there is none. */
  lemma {:induction false} FooterNextOwner(taskId: string, c: Fields)
    ensures var f := CompressionFooter(taskId, c);
            var h := Field(c, "handoff_to");
            (f.nextOwner == "" <==> !h.JArr? || forall x :: x in h.items ==> !IsNonBlankStr(x)) &&
            (f.nextOwner != "" ==> exists i :: 0 <= i < |h.items| && h.items[i] == JStr(f.nextOwner) &&
                                             forall j :: 0 <= j < i ==> !IsNonBlankStr(h.items[j]))
  {
    var h := Field(c, "handoff_to");
    var r := NonBlankStrings(h);
    if r != [] {
      assert r[0] in r;
    }
  }

  /** The next actions are never empty. When some entry addressed to the next owner has a
      non-blank item, they are exactly those items, stripped; otherwise they are the fallback. */
  lemma {:induction false} FooterNextActions(taskId: string, c: Fields)
    ensures var f := CompressionFooter(taskId, c);
            var v := Field(c, "next_role_action_items");
            |f.nextActions| >= 1 &&
            (f.nextActions == [FallbackAction] ||
             forall x :: x in f.nextActions ==>
               (x != "" && IsStripped(x) &&
                exists i :: 0 <= i < |v.items| && v.items[i].JObj? &&
                            (f.nextOwner == "" || Get(v.items[i].fields, "role") == Some(JStr(f.nextOwner))))) &&
            ((!v.JArr? || forall i :: 0 <= i < |v.items| ==> EntryActions(v.items[i], f.nextOwner) == []) ==>
               f.nextActions == [FallbackAction]) &&
            ((v.JArr? && exists i :: 0 <= i < |v.items| && EntryActions(v.items[i], f.nextOwner) != []) ==>
               forall x :: x in f.nextActions <==>
                 exists i :: 0 <= i < |v.items| && v.items[i].JObj? &&
                   (f.nextOwner == "" || Get(v.items[i].fields, "role") == Some(JStr(f.nextOwner))) &&
                   Field(v.items[i].fields, "items").JArr? && x != "" && Names(Field(v.items[i].fields, "items"), x))
  {
  }

  /** At most three risks and three open questions are kept, each non-blank. */
  lemma {:induction false} FooterBounds(taskId: string, c: Fields)
    ensures var f := CompressionFooter(taskId, c);
            |f.risks| <= 3 && |f.openQuestions| <= 3 &&
            (forall x :: x in f.risks ==> !IsBlank(x)) &&
            (forall x :: x in f.openQuestions ==> !IsBlank(x)) &&
            f.artifacts == ArtifactPaths(c) && f.kind == "compression_summary"
  {
  }
}
