/** The serializer logic of backend/portal_app/serializers.py that the core
    depends on: the batch-name extractor of the log-event serializer, the
    output shape of a pending action, and the input validation of the
    create-action serializer. */
module Serializers {
  import opened Models

  // ---- Python's str.strip() ----

  /** Python's `str.isspace` for one character. */
  predicate IsSpace(c: char)
  {
    ('\U{9}' <= c <= '\U{D}') || ('\U{1C}' <= c <= '\U{20}') ||
    c == '\U{85}' || c == '\U{A0}' || c == '\U{1680}' ||
    ('\U{2000}' <= c <= '\U{200A}') || c == '\U{2028}' || c == '\U{2029}' ||
    c == '\U{202F}' || c == '\U{205F}' || c == '\U{3000}'
  }

  function LeadingSpaces(s: string): (n: nat)
    ensures n <= |s|
    ensures forall k :: 0 <= k < n ==> IsSpace(s[k])
    ensures n < |s| ==> !IsSpace(s[n])
  {
    if s == [] || !IsSpace(s[0]) then 0 else 1 + LeadingSpaces(s[1..])
  }

  function TrailingSpaces(s: string): (n: nat)
    ensures n <= |s|
    ensures forall k :: |s| - n <= k < |s| ==> IsSpace(s[k])
    ensures n < |s| ==> !IsSpace(s[|s| - n - 1])
  {
    if s == [] || !IsSpace(s[|s| - 1]) then 0 else 1 + TrailingSpaces(s[..|s| - 1])
  }

  /** `r` is `s` with the `a` whitespace characters before it and only
      whitespace after it removed. */
  predicate TrimmedAt(s: string, r: string, a: int)
  {
    0 <= a <= |s| - |r| && r == s[a..a + |r|] &&
    (forall k :: 0 <= k < a ==> IsSpace(s[k])) &&
    (forall k :: a + |r| <= k < |s| ==> IsSpace(s[k]))
  }

  /** `str.strip()`: drops leading and trailing whitespace. */
  function Strip(s: string): (r: string)
    ensures r != [] ==> !IsSpace(r[0]) && !IsSpace(r[|r| - 1])
    ensures r == [] <==> forall k :: 0 <= k < |s| ==> IsSpace(s[k])
  {
    var a := LeadingSpaces(s);
    s[a..|s| - TrailingSpaces(s[a..])]
  }

  /** `strip` removes whitespace at the two ends and nothing else: the
      result is the input after its leading whitespace, up to its trailing
      whitespace. */
  lemma StripTrims(s: string)
    ensures TrimmedAt(s, Strip(s), LeadingSpaces(s))
  {
    var a := LeadingSpaces(s);
    var t := s[a..];
    var n := TrailingSpaces(t);
    var r := Strip(s);
    assert r == s[a..|s| - n];
    assert |r| == |t| - n;
    forall k | a + |r| <= k < |s| ensures IsSpace(s[k]) {
      assert |t| - n <= k - a < |t|;
      assert s[k] == t[k - a];
    }
  }

  // ---- The " - " separator ----

  /** An occurrence of the separator `" - "` starts at position `i`. */
  predicate SepAt(s: string, i: int)
  {
    0 <= i && i + 3 <= |s| && s[i] == ' ' && s[i + 1] == '-' && s[i + 2] == ' '
  }

  /** The leftmost occurrence of the separator at or after `from`. */
  function FindSeparator(s: string, from: nat): (r: Option<nat>)
    ensures r.Some? ==> from <= r.value && SepAt(s, r.value)
    ensures r.Some? ==> forall k :: from <= k < r.value ==> !SepAt(s, k)
    ensures r.None? ==> forall k :: from <= k ==> !SepAt(s, k)
    decreases |s| - from
  {
    if from + 3 > |s| then None
    else if SepAt(s, from) then Some(from)
    else FindSeparator(s, from + 1)
  }

  /** `desc.split(' - ', 1)[0].strip()`: the text before the first separator
      (all of it when there is none), trimmed. */
  function BatchKey(desc: string): string
  {
    match FindSeparator(desc, 0)
    case Some(i) => Strip(desc[..i])
    case None => Strip(desc)
  }

  /** `KfeLogEventSerializer.get_batch_name`: no batch for a null or empty
      description. The dashboard's grouping key is the same rule. */
  function BatchName(desc: Option<string>): Option<string>
  {
    if desc.None? || desc.value == "" then None else Some(BatchKey(desc.value))
  }

  /** Null and empty descriptions have no batch name. */
  lemma BatchNameOfNothing()
    ensures BatchName(None) == None
    ensures BatchName(Some("")) == None
  {
  }

  /** With a separator, the name is the trimmed text before its first
      occurrence. */
  lemma BatchNameBeforeFirstSeparator(desc: string, i: nat)
    requires SepAt(desc, i)
    requires forall k :: 0 <= k < i ==> !SepAt(desc, k)
    ensures BatchName(Some(desc)) == Some(Strip(desc[..i]))
  {
  }

  /** Without a separator, the name is the whole description, trimmed (it is
      not skipped). */
  lemma BatchNameWithoutSeparator(desc: string)
    requires desc != ""
    requires forall k :: 0 <= k < |desc| ==> !SepAt(desc, k)
    ensures BatchName(Some(desc)) == Some(Strip(desc))
  {
  }

  /** A word with no whitespace is its own stripped form. */
  lemma StripWord(w: string)
    requires forall k :: 0 <= k < |w| ==> !IsSpace(w[k])
    ensures Strip(w) == w
  {
    assert LeadingSpaces(w) == 0;
    assert TrailingSpaces(w) == 0;
  }

  /** The shape the convention expects: a word of `n` characters, then the
      separator, then any text. The batch name is the word. */
  lemma BatchKeyOfLabelled(desc: string, n: nat)
    requires SepAt(desc, n)
    requires forall k :: 0 <= k < n ==> !IsSpace(desc[k])
    ensures BatchKey(desc) == desc[..n]
  {
    assert IsSpace(' ');
    assert forall k :: 0 <= k < n ==> !SepAt(desc, k);
    assert FindSeparator(desc, 0) == Some(n);
    StripWord(desc[..n]);
  }

  /** The same, for a description built as word, separator, text. */
  lemma BatchKeyOfWordThenText(word: string, text: string)
    requires forall k :: 0 <= k < |word| ==> !IsSpace(word[k])
    ensures BatchKey(word + " - " + text) == word
  {
    var d := word + " - " + text;
    assert d[|word|] == ' ' && d[|word| + 1] == '-' && d[|word| + 2] == ' ';
    assert forall k :: 0 <= k < |word| ==> d[k] == word[k];
    BatchKeyOfLabelled(d, |word|);
    assert d[..|word|] == word;
  }

  /** A single word without the separator is its own batch name. */
  lemma BatchKeyOfWord(w: string)
    requires forall k :: 0 <= k < |w| ==> !IsSpace(w[k])
    ensures BatchKey(w) == w
  {
    forall k | 0 <= k < |w| ensures !SepAt(w, k) {
    }
    StripWord(w);
  }

  /** The docstring's example, whatever follows the separator. */
  lemma BatchNameExample(text: string)
    ensures BatchName(Some("xds_cron" + " - " + text)) == Some("xds_cron")
  {
    assert forall k :: 0 <= k < |"xds_cron"| ==> !IsSpace("xds_cron"[k]);
    BatchKeyOfWordThenText("xds_cron", text);
  }

  lemma {:induction false} StripIsSlice(s: string) returns (a: nat, b: nat)
    ensures a <= b <= |s| && Strip(s) == s[a..b]
  {
    a := LeadingSpaces(s);
    b := |s| - TrailingSpaces(s[a..]);
  }

  lemma NoSeparatorInSlice(s: string, a: nat, b: nat)
    requires a <= b <= |s|
    requires forall k :: 0 <= k < |s| ==> !SepAt(s, k)
    ensures forall k :: 0 <= k < b - a ==> !SepAt(s[a..b], k)
  {
    forall k | 0 <= k < b - a ensures !SepAt(s[a..b], k) {
      assert SepAt(s[a..b], k) ==> SepAt(s, a + k);
    }
  }

  /** A batch name never contains the separator. */
  lemma BatchNameHasNoSeparator(desc: string)
    requires desc != ""
    ensures forall k :: 0 <= k < |BatchKey(desc)| ==> !SepAt(BatchKey(desc), k)
  {
    var before := match FindSeparator(desc, 0) case Some(i) => desc[..i] case None => desc;
    forall k | 0 <= k < |before| ensures !SepAt(before, k) {
      assert SepAt(before, k) ==> SepAt(desc, k);
    }
    var a, b := StripIsSlice(before);
    NoSeparatorInSlice(before, a, b);
  }

  // ---- GatewayPendingActionSerializer ----

  /** The serialized form of a pending action: exactly the fields
      `id, gateway, action_command, payload, status, created_at, created_by,
      updated_at`, with `created_by` expanded through the user serializer. */
  datatype ActionView = ActionView(
    id: nat,
    gateway: string,
    actionCommand: string,
    payload: Option<Json>,
    status: string,
    createdAt: Time,
    createdBy: Option<User>,
    updatedAt: Time)

  function SerializeAction(a: PendingAction): (v: ActionView)
    ensures ParseStatus(v.status) == Some(a.status)
    ensures v.id == a.id && v.gateway == a.gateway && v.actionCommand == a.actionCommand && v.payload == a.payload
    ensures v.createdAt == a.createdAt && v.createdBy == a.createdBy && v.updatedAt == a.updatedAt
  {
    StatusCodeRoundTrip(a.status);
    ActionView(a.id, a.gateway, a.actionCommand, a.payload, StatusCode(a.status),
               a.createdAt, a.createdBy, a.updatedAt)
  }

  /** `many=True`: one view per action, in the query's order. */
  function SerializeActions(as_: seq<PendingAction>): (vs: seq<ActionView>)
    ensures |vs| == |as_|
    ensures forall k :: 0 <= k < |as_| ==> vs[k].id == as_[k].id && ParseStatus(vs[k].status) == Some(as_[k].status)
    ensures forall k :: 0 <= k < |as_| ==>
      vs[k].gateway == as_[k].gateway && vs[k].actionCommand == as_[k].actionCommand && vs[k].payload == as_[k].payload &&
      vs[k].createdAt == as_[k].createdAt && vs[k].createdBy == as_[k].createdBy && vs[k].updatedAt == as_[k].updatedAt
  {
    seq(|as_|, k requires 0 <= k < |as_| => SerializeAction(as_[k]))
  }

  // ---- CreateActionSerializer ----

  /** A request field: missing, JSON null, or given. */
  datatype Field<T> = Absent | Null | Given(value: T)

  /** The errors reported for one field, by DRF error code. */
  datatype FieldError = FieldError(field: string, codes: seq<string>)

  const GTW_UID_MAX: nat := 64
  const ACTION_COMMAND_MAX: nat := 100

  /** A DRF `CharField(max_length=max)` with its defaults (required, not
      null, not blank, whitespace trimmed, no NUL character): the trimmed
      value, or the failing codes. */
  function CharField(f: Field<string>, max: nat): (r: Result<string, seq<string>>)
    ensures r.Ok? <==> f.Given? && Strip(f.value) != [] && |Strip(f.value)| <= max && '\0' !in Strip(f.value)
    ensures r.Ok? ==> r.value == Strip(f.value)
    ensures r.Err? ==> r.error != []
  {
    match f
    case Absent => Err(["required"])
    case Null => Err(["null"])
    case Given(s) =>
      var v := Strip(s);
      if v == [] then Err(["blank"])
      else
        var codes := (if |v| > max then ["max_length"] else []) +
                     (if '\0' in v then ["null_characters_not_allowed"] else []);
        if codes == [] then Ok(v) else Err(codes)
  }

  /** A DRF `JSONField(required=False)`: may be missing, may not be null. */
  function OptionalJsonField(f: Field<Json>): (r: Result<Option<Json>, seq<string>>)
    ensures r.Ok? <==> !f.Null?
    ensures f.Absent? ==> r == Ok(None)
    ensures f.Given? ==> r == Ok(Some(f.value))
  {
    match f
    case Absent => Ok(None)
    case Null => Err(["null"])
    case Given(j) => Ok(Some(j))
  }

  datatype CreateActionInput = CreateActionInput(gtwUid: Field<string>, actionCommand: Field<string>, payload: Field<Json>)
  datatype ValidAction = ValidAction(gtwUid: string, actionCommand: string, payload: Option<Json>)

  function ErrorsOf<T>(name: string, r: Result<T, seq<string>>): seq<FieldError>
  {
    match r
    case Ok(_) => []
    case Err(codes) => [FieldError(name, codes)]
  }

  /** Some error of `errs` is field `name` with exactly `codes`. */
  predicate Reports(errs: seq<FieldError>, name: string, codes: seq<string>)
  {
    exists k :: 0 <= k < |errs| && errs[k] == FieldError(name, codes)
  }

  /** Some error of `errs` is about field `name`. */
  predicate Mentions(errs: seq<FieldError>, name: string)
  {
    exists k :: 0 <= k < |errs| && errs[k].field == name
  }

  /** The three fields' errors, in declaration order, report each failing
      field with its codes and no other field. */
  lemma ErrorsReported<A, B, C>(r1: Result<A, seq<string>>, r2: Result<B, seq<string>>, r3: Result<C, seq<string>>)
    ensures var errs := ErrorsOf("gtw_uid", r1) + ErrorsOf("action_command", r2) + ErrorsOf("payload", r3);
      (r1.Err? ==> Reports(errs, "gtw_uid", r1.error)) && (Mentions(errs, "gtw_uid") ==> r1.Err?) &&
      (r2.Err? ==> Reports(errs, "action_command", r2.error)) && (Mentions(errs, "action_command") ==> r2.Err?) &&
      (r3.Err? ==> Reports(errs, "payload", r3.error)) && (Mentions(errs, "payload") ==> r3.Err?)
  {
    var e1, e2, e3 := ErrorsOf("gtw_uid", r1), ErrorsOf("action_command", r2), ErrorsOf("payload", r3);
    var errs := e1 + e2 + e3;
    assert forall k :: 0 <= k < |errs| ==> errs[k] in e1 || errs[k] in e2 || errs[k] in e3;
    if r1.Err? { assert errs[0] == e1[0]; }
    if r2.Err? { assert errs[|e1|] == e2[0]; }
    if r3.Err? { assert errs[|e1| + |e2|] == e3[0]; }
  }

  /** `is_valid()`: every field is checked and every failing field is
      reported, in declaration order. */
  function ValidateCreateAction(input: CreateActionInput): (r: Result<ValidAction, seq<FieldError>>)
    ensures r.Ok? <==> CharField(input.gtwUid, GTW_UID_MAX).Ok? && CharField(input.actionCommand, ACTION_COMMAND_MAX).Ok? && !input.payload.Null?
    ensures r.Ok? ==> |r.value.gtwUid| <= GTW_UID_MAX && r.value.gtwUid != [] && |r.value.actionCommand| <= ACTION_COMMAND_MAX && r.value.actionCommand != []
    // `validated_data`: the trimmed uid and command, and the payload as given.
    ensures r.Ok? ==>
      r.value.gtwUid == Strip(input.gtwUid.value) &&
      r.value.actionCommand == Strip(input.actionCommand.value) &&
      r.value.payload == (if input.payload.Given? then Some(input.payload.value) else None)
    ensures r.Err? ==> r.error != [] && forall k :: 0 <= k < |r.error| ==> r.error[k].field in ["gtw_uid", "action_command", "payload"]
  {
    var uid := CharField(input.gtwUid, GTW_UID_MAX);
    var cmd := CharField(input.actionCommand, ACTION_COMMAND_MAX);
    var payload := OptionalJsonField(input.payload);
    if uid.Ok? && cmd.Ok? && payload.Ok? then
      Ok(ValidAction(uid.value, cmd.value, payload.value))
    else
      Err(ErrorsOf("gtw_uid", uid) + ErrorsOf("action_command", cmd) + ErrorsOf("payload", payload))
  }

  /** `serializer.errors`: each field is reported, with its own codes,
      exactly when it fails. */
  lemma ValidateCreateActionErrors(input: CreateActionInput)
    ensures var r := ValidateCreateAction(input);
      r.Err? ==>
        (CharField(input.gtwUid, GTW_UID_MAX).Err? ==> Reports(r.error, "gtw_uid", CharField(input.gtwUid, GTW_UID_MAX).error)) &&
        (Mentions(r.error, "gtw_uid") ==> CharField(input.gtwUid, GTW_UID_MAX).Err?) &&
        (CharField(input.actionCommand, ACTION_COMMAND_MAX).Err? ==>
           Reports(r.error, "action_command", CharField(input.actionCommand, ACTION_COMMAND_MAX).error)) &&
        (Mentions(r.error, "action_command") ==> CharField(input.actionCommand, ACTION_COMMAND_MAX).Err?) &&
        (input.payload.Null? ==> Reports(r.error, "payload", ["null"])) &&
        (Mentions(r.error, "payload") ==> input.payload.Null?)
  {
    ErrorsReported(CharField(input.gtwUid, GTW_UID_MAX), CharField(input.actionCommand, ACTION_COMMAND_MAX),
                   OptionalJsonField(input.payload));
  }
}
