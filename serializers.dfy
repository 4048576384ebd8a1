/** The parts of Django REST framework's field validation the input
    serializers rely on: how a field treats a missing key, a null and
    a value, and in what order its checks run. A request body is a JSON
    object, given as its decoded field map. */
module Fields {
  import opened Base
  import opened Json

  /** What a field reports: the codes of the checks it failed (every
      failing validator is listed), the per-index codes of a list's items,
      or the message of a `validate_<field>` method. */
  datatype FieldError = Codes(codes: seq<string>) | ItemErrors(items: map<nat, seq<string>>) | Message(text: string)

  /** One field's contribution to `validated_data`: a value, nothing (an
      optional field that was left out and has no default), or an error. */
  datatype Outcome<+T> = Value(v: T) | Skip | Invalid(err: FieldError)

  /** The error dictionary of a serializer, field name to error. */
  type Errors = map<string, FieldError>

  function Fail<T>(code: string): Outcome<T> { Invalid(Codes([code])) }

  /** `data.get(name, empty)` */
  function Raw(data: map<string, Json>, name: string): (r: Option<Json>)
    ensures r.Some? <==> name in data
  {
    if name in data then Some(data[name]) else None
  }

  /** `validate_empty_values`: a missing key is `required`, the default or
      skipped; a null is `nullValue` when the field allows null and `null`
      otherwise; None means the raw value goes on to be validated. Defaults
      and nulls are returned without running any validator. */
  function EmptyValues<T>(raw: Option<Json>, required: bool, default: Option<T>, nullValue: Option<T>): (r: Option<Outcome<T>>)
    ensures r.None? <==> raw.Some? && !raw.value.JNull?
  {
    if raw.None? then Some(if required then Fail("required") else if default.Some? then Value(default.value) else Skip)
    else if raw.value.JNull? then Some(if nullValue.Some? then Value(nullValue.value) else Fail("null"))
    else None
  }

  /** `str(i)` for a Python int. */
  function IntStr(i: int): string
  {
    if i < 0 then "-" + NatToString(-i) else NatToString(i)
  }

  /** A string with no surrounding white space is its own `strip()`. */
  lemma StripStripped(s: string)
    requires s == [] || (!IsSpace(s[0]) && !IsSpace(s[|s| - 1]))
    ensures Strip(s) == s
  {
    assert TrimLeft(s) == s;
  }

  lemma StripIdempotent(s: string)
    ensures Strip(Strip(s)) == Strip(s)
  {
    StripShape(s);
    StripStripped(Strip(s));
  }

  // ------------------------------------------------------------ CharField

  /** The validators of a CharField, in the order its constructor installs
      them (`max_length`, `min_length`, the null-character check); all of
      them run and every failure is reported. Surrogates cannot occur in a
      Dafny string. */
  function CharChecks(v: string, minLength: nat, maxLength: Option<nat>): (codes: seq<string>)
    ensures codes == [] <==> minLength <= |v| && (maxLength.Some? ==> |v| <= maxLength.value) && '\0' !in v
  {
    (if maxLength.Some? && |v| > maxLength.value then ["max_length"] else [])
    + (if |v| < minLength then ["min_length"] else [])
    + (if '\0' in v then ["null_characters_not_allowed"] else [])
  }

  /** `CharField.run_validation` on the text of a present value: blank
      once stripped is `blank` (or "" when blanks are allowed, with no
      validator run); otherwise the stripped text, if it passes every
      validator. */
  function CharText(text: string, allowBlank: bool, minLength: nat, maxLength: Option<nat>): (r: Outcome<string>)
    ensures !r.Skip?
    ensures r.Value? ==> Strip(r.v) == r.v && (r.v == "" ==> allowBlank)
    ensures r.Value? && r.v != "" ==> r.v == Strip(text) && CharChecks(r.v, minLength, maxLength) == []
  {
    var v := Strip(text);
    if v == "" then (if allowBlank then Value("") else Fail("blank"))
    else
      StripIdempotent(text);
      var codes := CharChecks(v, minLength, maxLength);
      if codes == [] then Value(v) else Invalid(Codes(codes))
  }

  /** A string or a number is taken as its `str()`; anything else is
      `invalid`. */
  function CharData(j: Json, allowBlank: bool, minLength: nat, maxLength: Option<nat>): (r: Outcome<string>)
    ensures !r.Skip?
    ensures r.Value? ==> Strip(r.v) == r.v && (r.v == "" ==> allowBlank)
    ensures r.Value? && r.v != "" ==> CharChecks(r.v, minLength, maxLength) == []
  {
    match j
    case JStr(s) => CharText(s, allowBlank, minLength, maxLength)
    case JInt(i) => CharText(IntStr(i), allowBlank, minLength, maxLength)
    case _ => Fail("invalid")
  }

  /** A non-null CharField. A value it accepts from the request is stripped,
      non-empty unless blanks are allowed, within its length bounds and
      free of null characters. */
  function CharField(raw: Option<Json>, required: bool, default: Option<string>, allowBlank: bool,
                     minLength: nat, maxLength: Option<nat>): (r: Outcome<string>)
    ensures raw.None? ==> r == (if required then Fail("required") else if default.Some? then Value(default.value) else Skip)
    ensures raw == Some(JNull) ==> r == Fail("null")
    ensures raw.Some? ==> !r.Skip?
    ensures r.Value? && raw.Some? ==> Strip(r.v) == r.v && (r.v == "" ==> allowBlank)
    ensures r.Value? && raw.Some? && r.v != "" ==>
      minLength <= |r.v| && (maxLength.Some? ==> |r.v| <= maxLength.value) && '\0' !in r.v
  {
    var e := EmptyValues(raw, required, default, None);
    if e.Some? then e.value else CharData(raw.value, allowBlank, minLength, maxLength)
  }

  /** A value sent as a string is accepted as the string without its
      surrounding white space, when that is within the bounds. */
  lemma CharFieldAccepts(s: string, required: bool, default: Option<string>, allowBlank: bool, minLength: nat, maxLength: Option<nat>)
    requires Strip(s) != "" && CharChecks(Strip(s), minLength, maxLength) == []
    ensures CharField(Some(JStr(s)), required, default, allowBlank, minLength, maxLength) == Value(Strip(s))
  {
  }

  // --------------------------------------------------------- IntegerField

  /** `IntegerField.MAX_STRING_LENGTH`. */
  const MaxStringLength: nat := 1000

  /** `int(s)` on an optional sign and decimal digits between white space. */
  function ParseInt(s: string): (r: Option<int>)
  {
    var t := Strip(s);
    if t == [] then None
    else if t[0] == '-' || t[0] == '+' then
      var d := t[1..];
      if d != [] && AllDigits(d) then (var m: int := DigitsToNat(d); Some(if t[0] == '-' then -m else m)) else None
    else if AllDigits(t) then Some(DigitsToNat(t))
    else None
  }

  /** The integer a present value stands for, or the error code. */
  function ReadInt(j: Json): Result<int, string>
  {
    match j
    case JInt(i) => Ok(i)
    case JStr(s) => if |s| > MaxStringLength then Err("max_string_length")
                    else (var p := ParseInt(s); if p.Some? then Ok(p.value) else Err("invalid"))
    case _ => Err("invalid")
  }

  /** `IntegerField.to_internal_value` and its `min_value` validator: a
      number is itself; a string of more than 1000 characters is
      `max_string_length`; any other string is parsed; booleans, lists and
      objects are `invalid`. */
  function IntData(j: Json, minValue: Option<int>): Outcome<int>
  {
    var n := ReadInt(j);
    if n.Err? then Fail(n.error)
    else if minValue.Some? && n.value < minValue.value then Fail("min_value")
    else Value(n.value)
  }

  /** An IntegerField; `nullable` is `allow_null=True`, which also makes a
      null the value None. */
  function IntegerField(raw: Option<Json>, required: bool, default: Option<Option<int>>, nullable: bool,
                        minValue: Option<int>): (r: Outcome<Option<int>>)
    ensures raw.None? ==> r == (if required then Fail("required") else if default.Some? then Value(default.value) else Skip)
    ensures raw == Some(JNull) ==> r == (if nullable then Value(None) else Fail("null"))
    ensures raw.Some? ==> !r.Skip?
    ensures raw.Some? && r.Value? && r.v.Some? ==> minValue.Some? ==> r.v.value >= minValue.value
    ensures raw.Some? && r.Value? && r.v.None? ==> nullable && raw == Some(JNull)
    ensures forall i :: raw == Some(JInt(i)) ==> r == (if minValue.Some? && i < minValue.value then Fail("min_value") else Value(Some(i)))
  {
    var e := EmptyValues(raw, required, default, if nullable then Some(None) else None);
    if e.Some? then e.value
    else
      var o := IntData(raw.value, minValue);
      if o.Value? then Value(Some(o.v)) else if o.Invalid? then Invalid(o.err) else Skip
  }

  lemma DigitStringStripped(n: nat)
    ensures Strip(NatToString(n)) == NatToString(n)
  {
    var s := NatToString(n);
    assert IsDigit(s[0]) && IsDigit(s[|s| - 1]);
    StripStripped(s);
  }

  /** `int(str(i)) == i`. */
  lemma {:induction false} ParseIntStr(i: int)
    ensures ParseInt(IntStr(i)) == Some(i)
  {
    var s := IntStr(i);
    var n: nat := if i < 0 then -i else i;
    NatToStringRoundTrip(n);
    var d := NatToString(n);
    if i < 0 {
      assert s[1..] == d;
      assert s[0] == '-' && !IsSpace(s[0]);
      assert s[|s| - 1] == d[|d| - 1] && IsDigit(d[|d| - 1]);
      StripStripped(s);
    } else {
      DigitStringStripped(n);
      assert IsDigit(d[0]);
    }
  }

  /** A number sent as its decimal string is read as that number, unless
      the string is longer than 1000 characters. */
  lemma IntStringRoundTrip(i: int, minValue: Option<int>)
    ensures |IntStr(i)| <= MaxStringLength ==> IntData(JStr(IntStr(i)), minValue) == IntData(JInt(i), minValue)
    ensures |IntStr(i)| > MaxStringLength ==> IntData(JStr(IntStr(i)), minValue) == Fail("max_string_length")
  {
    ReadIntStr(i);
  }

  lemma ReadIntStr(i: int)
    ensures ReadInt(JStr(IntStr(i))) == if |IntStr(i)| > MaxStringLength then Err("max_string_length") else Ok(i)
  {
    if |IntStr(i)| <= MaxStringLength {
      ParseIntStr(i);
    }
  }

  // ---------------------------------------------------------- ChoiceField

  /** `str(data)` as a choice lookup sees it: None for lists and objects,
      whose text can never be a choice. */
  function ChoiceKey(j: Json): Option<string>
  {
    match j
    case JStr(s) => Some(s)
    case JInt(i) => Some(IntStr(i))
    case JBool(b) => Some(if b then "True" else "False")
    case _ => None
  }

  /** `ChoiceField.to_internal_value` (no blanks allowed): the choice whose
      value is exactly `str(data)`, unstripped, or `invalid_choice`. */
  function ChoiceData<T>(j: Json, parse: string -> Option<T>): (r: Outcome<T>)
    ensures r.Value? <==> ChoiceKey(j).Some? && parse(ChoiceKey(j).value).Some?
    ensures r.Value? ==> r.v == parse(ChoiceKey(j).value).value
    ensures !r.Value? ==> r == Fail("invalid_choice")
  {
    var k := ChoiceKey(j);
    if k.Some? && parse(k.value).Some? then Value(parse(k.value).value) else Fail("invalid_choice")
  }

  /** A non-null ChoiceField. */
  function ChoiceField<T>(raw: Option<Json>, required: bool, default: Option<T>, parse: string -> Option<T>): (r: Outcome<T>)
    ensures raw.None? ==> r == (if required then Fail("required") else if default.Some? then Value(default.value) else Skip)
    ensures raw == Some(JNull) ==> r == Fail("null")
    ensures raw.Some? && !raw.value.JNull? ==> r == ChoiceData(raw.value, parse)
    ensures raw.Some? ==> !r.Skip?
  {
    var e := EmptyValues(raw, required, default, None);
    if e.Some? then e.value else ChoiceData(raw.value, parse)
  }

  // -------------------------------------------------------- DateTimeField

  /** A nullable DateTimeField. Reading an ISO 8601 string into an
      instant (and making it timezone-aware) is the parameter `parseInstant`;
      anything but a string is `invalid`. */
  function DateTimeField(raw: Option<Json>, required: bool, default: Option<Option<int>>,
                         parseInstant: string -> Option<int>): (r: Outcome<Option<int>>)
    ensures raw.None? ==> r == (if required then Fail("required") else if default.Some? then Value(default.value) else Skip)
    ensures raw == Some(JNull) ==> r == Value(None)
    ensures raw.Some? ==> !r.Skip?
    ensures forall s :: raw == Some(JStr(s)) ==> r == (if parseInstant(s).Some? then Value(parseInstant(s)) else Fail("invalid"))
  {
    var e := EmptyValues(raw, required, default, Some(None));
    if e.Some? then e.value
    else
      match raw.value
      case JStr(s) => if parseInstant(s).Some? then Value(parseInstant(s)) else Fail("invalid")
      case _ => Fail("invalid")
  }

  // ---------------------------------------------------- ListField of ids

  /** The child `IntegerField(min_value=1)` of a tag-id list. */
  function IdItem(j: Json): Outcome<int>
  {
    if j.JNull? then Fail("null") else IntData(j, Some(1))
  }

  /** `run_child_validation`: every item is validated and the failures are
      collected by index, or the list of read ids. */
  function Items(items: seq<Json>): (r: Result<seq<Id>, map<nat, seq<string>>>)
    ensures r.Ok? ==> |r.value| == |items| && forall i :: 0 <= i < |items| ==> IdItem(items[i]) == Value(r.value[i] as int)
    ensures r.Err? ==> r.error != map[]
    ensures r.Err? ==> forall i: nat :: i in r.error <==> i < |items| && IdItem(items[i]).Invalid?
    ensures r.Err? ==> forall i: nat :: i in r.error ==> Invalid(Codes(r.error[i])) == IdItem(items[i])
    decreases |items|
  {
    if items == [] then Ok([])
    else
      var n := |items| - 1;
      var before := Items(items[..n]);
      var last := IdItem(items[n]);
      assert forall i :: 0 <= i < n ==> items[..n][i] == items[i];
      if last.Invalid? then
        var codes := last.err.codes;
        var m := if before.Err? then before.error[n := codes] else map[n := codes];
        assert n in m;
        Err(m)
      else if before.Err? then before
      else
        assert last.Value? && last.v >= 1;
        Ok(before.value + [last.v])
  }

  /** The `tag_ids` field shared by the task and tag serializers:
      `ListField(child=IntegerField(min_value=1), allow_empty=True,
      max_length=20)`, required. */
  function TagIdsField(raw: Option<Json>): (r: Outcome<seq<Id>>)
    ensures raw.None? ==> r == Fail("required")
    ensures raw == Some(JNull) ==> r == Fail("null")
    ensures !r.Skip?
    ensures r.Value? ==> |r.v| <= 20 && raw.Some? && raw.value.JList? && |raw.value.items| == |r.v|
    ensures r.Value? ==> forall i :: 0 <= i < |r.v| ==> IdItem(raw.value.items[i]) == Value(r.v[i] as int)
    ensures raw.Some? && !raw.value.JList? && !raw.value.JNull? ==> r == Fail("not_a_list")
    ensures forall items: seq<Json> :: raw == Some(JList(items)) && |items| > 20 ==> r.Invalid?
  {
    var e := EmptyValues(raw, true, None, None);
    if e.Some? then e.value
    else if !raw.value.JList? then Fail("not_a_list")
    else
      var checked := Items(raw.value.items);
      if checked.Err? then Invalid(ItemErrors(checked.error))
      else if |checked.value| > 20 then Fail("max_length")
      else Value(checked.value)
  }

  /** Every list of at most 20 positive numbers is read as itself; in
      particular the empty list is accepted. */
  lemma {:induction false} IdListAccepted(ids: seq<Id>)
    requires |ids| <= 20
    ensures TagIdsField(Some(JList(IdsJson(ids)))) == Value(ids)
  {
    ItemsOfIds(ids);
  }

  function IdsJson(ids: seq<Id>): (r: seq<Json>)
    ensures |r| == |ids| && forall i :: 0 <= i < |ids| ==> r[i] == JInt(ids[i])
  {
    seq(|ids|, i requires 0 <= i < |ids| => JInt(ids[i]))
  }

  lemma {:induction false} ItemsOfIds(ids: seq<Id>)
    ensures Items(IdsJson(ids)) == Ok(ids)
    decreases |ids|
  {
    if ids != [] {
      var n := |ids| - 1;
      assert IdsJson(ids)[..n] == IdsJson(ids[..n]);
      ItemsOfIds(ids[..n]);
      assert ids[..n] + [ids[n]] == ids;
    }
  }

  // ------------------------------------------------------------ serializer

  /** The entry a field adds to the error dictionary. */
  function ErrorOf<T>(name: string, o: Outcome<T>): (r: Errors)
    ensures o.Invalid? ==> r == map[name := o.err]
    ensures !o.Invalid? ==> r == map[]
  {
    if o.Invalid? then map[name := o.err] else map[]
  }

  /** A skipped field reads as None in the validated data. */
  function Opt<T>(o: Outcome<T>): (r: Option<T>)
    ensures r.Some? <==> o.Value?
    ensures r.Some? ==> r.value == o.v
  {
    if o.Value? then Some(o.v) else None
  }
}

/** The input serializers of apps/tasks/api/serializers.py. */
module TaskSerializers {
  import opened Base
  import opened Json
  import opened Models
  import opened Fields

  /** `TaskCreateSerializer.validated_data`. */
  datatype TaskCreateInput = TaskCreateInput(title: string, description: string, priority: Priority,
                                             deadline: Option<int>, assigneeId: Option<int>)

  function CreateTitle(data: map<string, Json>): Outcome<string>
  {
    CharField(Raw(data, "title"), true, None, false, 0, Some(255))
  }

  function CreateDescription(data: map<string, Json>): Outcome<string>
  {
    CharField(Raw(data, "description"), false, Some(""), true, 0, None)
  }

  function CreatePriority(data: map<string, Json>): Outcome<Priority>
  {
    ChoiceField(Raw(data, "priority"), false, Some(Medium), ParsePriority)
  }

  function CreateDeadline(data: map<string, Json>, parseInstant: string -> Option<int>): Outcome<Option<int>>
  {
    DateTimeField(Raw(data, "deadline"), false, Some(None), parseInstant)
  }

  function CreateAssignee(data: map<string, Json>): Outcome<Option<int>>
  {
    IntegerField(Raw(data, "assignee_id"), false, Some(None), true, None)
  }

  /** `TaskCreateSerializer`: accepted exactly when none of the five
      fields fails; otherwise the error dictionary is not empty. */
  function TaskCreate(data: map<string, Json>, parseInstant: string -> Option<int>): (r: Result<TaskCreateInput, Errors>)
    ensures r.Ok? <==> !CreateTitle(data).Invalid? && !CreateDescription(data).Invalid? && !CreatePriority(data).Invalid?
                       && !CreateDeadline(data, parseInstant).Invalid? && !CreateAssignee(data).Invalid?
    ensures r.Err? ==> r.error != map[]
  {
    var title := CreateTitle(data);
    var description := CreateDescription(data);
    var priority := CreatePriority(data);
    var deadline := CreateDeadline(data, parseInstant);
    var assignee := CreateAssignee(data);
    if title.Value? && description.Value? && priority.Value? && deadline.Value? && assignee.Value? then
      Ok(TaskCreateInput(title.v, description.v, priority.v, deadline.v, assignee.v))
    else
      var errors := ErrorOf("description", description) + ErrorOf("priority", priority)
                    + ErrorOf("deadline", deadline) + ErrorOf("assignee_id", assignee) + ErrorOf("title", title);
      assert !title.Skip? && !description.Skip? && !priority.Skip? && !deadline.Skip? && !assignee.Skip?;
      assert title.Invalid? ==> "title" in errors;
      assert description.Invalid? ==> "description" in errors;
      assert priority.Invalid? ==> "priority" in errors;
      assert deadline.Invalid? ==> "deadline" in errors;
      assert assignee.Invalid? ==> "assignee_id" in errors;
      Err(errors)
  }

  /** An accepted title is stripped and 1 to 255 characters long; a field
      left out takes its default. */
  lemma TaskCreateAccepted(data: map<string, Json>, parseInstant: string -> Option<int>)
    requires TaskCreate(data, parseInstant).Ok?
    ensures var v := TaskCreate(data, parseInstant).value;
      1 <= |v.title| <= 255 && Strip(v.title) == v.title
      && ("description" !in data ==> v.description == "")
      && ("priority" !in data ==> v.priority == Medium)
      && ("deadline" !in data ==> v.deadline.None?)
      && ("assignee_id" !in data ==> v.assigneeId.None?)
  {
  }

  /** Without a title the body is refused, and the title is reported as
      required. */
  lemma TitleRequired(data: map<string, Json>, parseInstant: string -> Option<int>)
    requires "title" !in data
    ensures TaskCreate(data, parseInstant).Err?
    ensures var e := TaskCreate(data, parseInstant).error; "title" in e && e["title"] == Codes(["required"])
  {
    assert CreateTitle(data) == Fail("required");
  }

  /** The smallest valid body: only a title, and every default applies. */
  lemma TitleOnlyCreates(title: string, parseInstant: string -> Option<int>)
    requires Strip(title) != "" && |Strip(title)| <= 255 && '\0' !in Strip(title)
    ensures TaskCreate(map["title" := JStr(title)], parseInstant) == Ok(TaskCreateInput(Strip(title), "", Medium, None, None))
  {
    var data := map["title" := JStr(title)];
    CharFieldAccepts(title, true, None, false, 0, Some(255));
    assert CreateTitle(data) == Value(Strip(title));
    assert Raw(data, "description").None? && Raw(data, "priority").None?;
    assert Raw(data, "deadline").None? && Raw(data, "assignee_id").None?;
    assert CreateDescription(data) == Value("") && CreatePriority(data) == Value(Medium);
    assert CreateDeadline(data, parseInstant) == Value(None) && CreateAssignee(data) == Value(None);
  }

  /** `TaskUpdateSerializer.validated_data`, every field optional. The
      deadline is a patch: left out means unchanged, null means cleared. */
  datatype TaskUpdateInput = TaskUpdateInput(title: Option<string>, description: Option<string>,
                                             priority: Option<Priority>, deadline: Patch<Option<int>>)

  function UpdateTitle(data: map<string, Json>): Outcome<string>
  {
    CharField(Raw(data, "title"), false, None, false, 0, Some(255))
  }

  function UpdateDescription(data: map<string, Json>): Outcome<string>
  {
    CharField(Raw(data, "description"), false, None, true, 0, None)
  }

  function UpdatePriority(data: map<string, Json>): Outcome<Priority>
  {
    ChoiceField(Raw(data, "priority"), false, None, ParsePriority)
  }

  function UpdateDeadline(data: map<string, Json>, parseInstant: string -> Option<int>): Outcome<Option<int>>
  {
    DateTimeField(Raw(data, "deadline"), false, None, parseInstant)
  }

  /** `TaskUpdateSerializer`: accepted exactly when none of the four
      fields fails. */
  function TaskUpdate(data: map<string, Json>, parseInstant: string -> Option<int>): (r: Result<TaskUpdateInput, Errors>)
    ensures r.Ok? <==> !UpdateTitle(data).Invalid? && !UpdateDescription(data).Invalid? && !UpdatePriority(data).Invalid?
                       && !UpdateDeadline(data, parseInstant).Invalid?
    ensures r.Err? ==> r.error != map[]
  {
    var title := UpdateTitle(data);
    var description := UpdateDescription(data);
    var priority := UpdatePriority(data);
    var deadline := UpdateDeadline(data, parseInstant);
    if !title.Invalid? && !description.Invalid? && !priority.Invalid? && !deadline.Invalid? then
      Ok(TaskUpdateInput(Opt(title), Opt(description), Opt(priority), if deadline.Value? then Set(deadline.v) else Unset))
    else
      var errors := ErrorOf("title", title) + ErrorOf("description", description) + ErrorOf("priority", priority)
                    + ErrorOf("deadline", deadline);
      assert title.Invalid? ==> "title" in errors;
      assert description.Invalid? ==> "description" in errors;
      assert priority.Invalid? ==> "priority" in errors;
      assert deadline.Invalid? ==> "deadline" in errors;
      Err(errors)
  }

  /** Exactly the fields sent are changed: a field is set when its key is
      present; the deadline is cleared by an explicit null; a new title is
      1 to 255 characters. */
  lemma TaskUpdateAccepted(data: map<string, Json>, parseInstant: string -> Option<int>)
    requires TaskUpdate(data, parseInstant).Ok?
    ensures var v := TaskUpdate(data, parseInstant).value;
      (v.title.Some? <==> "title" in data) && (v.description.Some? <==> "description" in data)
      && (v.priority.Some? <==> "priority" in data) && (v.deadline.Set? <==> "deadline" in data)
      && (v.title.Some? ==> 1 <= |v.title.value| <= 255)
      && ("deadline" in data && data["deadline"] == JNull ==> v.deadline == Set(None))
  {
    assert "title" in data ==> !UpdateTitle(data).Skip?;
    assert "description" in data ==> !UpdateDescription(data).Skip?;
    assert "priority" in data ==> !UpdatePriority(data).Skip?;
    assert "deadline" in data ==> !UpdateDeadline(data, parseInstant).Skip?;
  }

  /** An empty body is a valid update that changes nothing. */
  lemma EmptyUpdateChangesNothing(parseInstant: string -> Option<int>)
    ensures TaskUpdate(map[], parseInstant) == Ok(TaskUpdateInput(None, None, None, Unset))
  {
  }

  /** `TaskStatusSerializer`: one of the four stored status values,
      nothing else. */
  function TaskStatusInput(data: map<string, Json>): (r: Result<TaskStatus, Errors>)
    ensures r.Ok? <==> "status" in data && ChoiceKey(data["status"]).Some? && ParseStatus(ChoiceKey(data["status"]).value).Some?
    ensures r.Ok? ==> ChoiceKey(data["status"]) == Some(StatusValue(r.value))
    ensures r.Err? ==> r.error.Keys == {"status"}
  {
    var o := ChoiceField(Raw(data, "status"), true, None, ParseStatus);
    if o.Value? then Ok(o.v) else Err(map["status" := if o.Invalid? then o.err else Codes([])])
  }

  /** Every status is accepted by its stored value. */
  lemma StatusValuesAccepted(s: TaskStatus)
    ensures TaskStatusInput(map["status" := JStr(StatusValue(s))]) == Ok(s)
  {
    ChoicesRoundTrip(s, Medium);
  }

  /** `TaskAssignSerializer`: the key is required, but null is a value and
      means unassign. */
  function TaskAssign(data: map<string, Json>): (r: Result<Option<int>, Errors>)
    ensures "assignee_id" !in data ==> r == Err(map["assignee_id" := Codes(["required"])])
    ensures "assignee_id" in data && data["assignee_id"] == JNull ==> r == Ok(None)
    ensures forall i :: "assignee_id" in data && data["assignee_id"] == JInt(i) ==> r == Ok(Some(i))
    ensures r.Ok? && r.value.None? ==> "assignee_id" in data && data["assignee_id"] == JNull
  {
    var o := IntegerField(Raw(data, "assignee_id"), true, None, true, None);
    if o.Value? then Ok(o.v) else Err(map["assignee_id" := if o.Invalid? then o.err else Codes([])])
  }

  /** `TaskReorderSerializer`: an integer of at least 0. */
  function TaskReorder(data: map<string, Json>): (r: Result<nat, Errors>)
    ensures "position" !in data ==> r == Err(map["position" := Codes(["required"])])
    ensures forall i :: "position" in data && data["position"] == JInt(i) ==>
      r == (if i >= 0 then Ok(i) else Err(map["position" := Codes(["min_value"])]))
    ensures r.Err? ==> r.error.Keys == {"position"}
  {
    var o := IntegerField(Raw(data, "position"), true, None, false, Some(0));
    if o.Value? && o.v.Some? && o.v.value >= 0 then Ok(o.v.value)
    else Err(map["position" := if o.Invalid? then o.err else Codes([])])
  }

  /** Keys a serializer does not declare are ignored. */
  lemma UndeclaredKeysIgnored(data: map<string, Json>, k: string, v: Json)
    requires k != "position"
    ensures TaskReorder(data[k := v]) == TaskReorder(data)
  {
    assert Raw(data[k := v], "position") == Raw(data, "position");
  }

  /** `TaskSetTagsSerializer`. */
  function TaskSetTags(data: map<string, Json>): (r: Result<seq<Id>, Errors>)
    ensures r.Ok? ==> |r.value| <= 20
    ensures r.Ok? <==> TagIdsField(Raw(data, "tag_ids")).Value?
    ensures r.Err? ==> r.error.Keys == {"tag_ids"}
  {
    var o := TagIdsField(Raw(data, "tag_ids"));
    if o.Value? then Ok(o.v) else Err(map["tag_ids" := if o.Invalid? then o.err else Codes([])])
  }
}

/** The input serializers of apps/projects/serializers.py. */
module ProjectSerializers {
  import opened Base
  import opened Json
  import opened Models
  import opened Fields

  /** The three roles the member serializers offer: owner is not one. */
  function MemberRoleChoice(s: string): (r: Option<Role>)
    ensures r.Some? ==> r.value != Owner && RoleValue(r.value) == s
    ensures r.None? ==> s !in {"admin", "member", "viewer"}
  {
    var role := ParseRole(s);
    if role.Some? && role.value != Owner then role else None
  }

  datatype MemberCreateInput = MemberCreateInput(userId: Id, role: Role)

  function MemberUserId(data: map<string, Json>): Outcome<Option<int>>
  {
    IntegerField(Raw(data, "user_id"), true, None, false, Some(1))
  }

  function MemberRole(data: map<string, Json>, required: bool): Outcome<Role>
  {
    ChoiceField(Raw(data, "role"), required, if required then None else Some(Member), MemberRoleChoice)
  }

  /** `ProjectMemberCreateSerializer`: accepted exactly when the user id
      and the role pass; an accepted role is never owner. */
  function MemberCreate(data: map<string, Json>): (r: Result<MemberCreateInput, Errors>)
    ensures r.Ok? <==> !MemberUserId(data).Invalid? && !MemberRole(data, false).Invalid?
    ensures r.Ok? ==> r.value.role != Owner
    ensures r.Err? ==> r.error != map[] && r.error.Keys <= {"user_id", "role"}
  {
    var u := MemberUserId(data);
    var role := MemberRole(data, false);
    if u.Value? && u.v.Some? && u.v.value >= 1 && role.Value? then Ok(MemberCreateInput(u.v.value, role.v))
    else
      var errors := ErrorOf("role", role) + ErrorOf("user_id", u);
      assert !u.Skip? && (u.Value? ==> u.v.Some? && u.v.value >= 1) && !role.Skip?;
      assert u.Invalid? ==> "user_id" in errors;
      assert role.Invalid? ==> "role" in errors;
      Err(errors)
  }

  /** The role defaults to member; the user id is required and at least 1;
      owner is refused as a choice. */
  lemma MemberCreateRules(data: map<string, Json>)
    ensures MemberCreate(data).Ok? && "role" !in data ==> MemberCreate(data).value.role == Member
    ensures "user_id" !in data ==> MemberCreate(data).Err? && MemberCreate(data).error["user_id"] == Codes(["required"])
    ensures forall i :: "user_id" in data && data["user_id"] == JInt(i) && i < 1 ==>
      MemberCreate(data).Err? && MemberCreate(data).error["user_id"] == Codes(["min_value"])
    ensures "role" in data && data["role"] == JStr("owner") ==>
      MemberCreate(data).Err? && "role" in MemberCreate(data).error && MemberCreate(data).error["role"] == Codes(["invalid_choice"])
  {
    assert "user_id" !in data ==> MemberUserId(data) == Fail("required");
    assert MemberRoleChoice("owner").None?;
  }

  /** `ProjectMemberUpdateSerializer`: the role is required, with the same
      three choices. */
  function MemberUpdate(data: map<string, Json>): (r: Result<Role, Errors>)
    ensures r.Ok? ==> r.value != Owner && "role" in data && ChoiceKey(data["role"]) == Some(RoleValue(r.value))
    ensures "role" !in data ==> r == Err(map["role" := Codes(["required"])])
    ensures r.Err? ==> r.error.Keys == {"role"}
  {
    var o := MemberRole(data, true);
    if o.Value? then Ok(o.v) else Err(map["role" := if o.Invalid? then o.err else Codes([])])
  }

  /** Each of the three roles is accepted by its value, on both
      serializers. */
  lemma MemberRolesAccepted(role: Role, u: Id)
    requires role != Owner
    ensures MemberUpdate(map["role" := JStr(RoleValue(role))]) == Ok(role)
    ensures MemberCreate(map["user_id" := JInt(u), "role" := JStr(RoleValue(role))]) == Ok(MemberCreateInput(u, role))
  {
    RoleRoundTrip(role);
    var data := map["user_id" := JInt(u), "role" := JStr(RoleValue(role))];
    assert Raw(data, "user_id") == Some(JInt(u));
  }

  /** `ProjectCreateSerializer` and `ProjectUpdateSerializer`: a name of at
      most 255 characters (required on create) and a description that may
      be blank (defaulting to "" on create). */
  datatype ProjectInput = ProjectInput(name: Option<string>, description: Option<string>)

  function ProjectName(data: map<string, Json>, create: bool): Outcome<string>
  {
    CharField(Raw(data, "name"), create, None, false, 0, Some(255))
  }

  function ProjectDescription(data: map<string, Json>, create: bool): Outcome<string>
  {
    CharField(Raw(data, "description"), false, if create then Some("") else None, true, 0, None)
  }

  function ProjectFields(data: map<string, Json>, create: bool): (r: Result<ProjectInput, Errors>)
    ensures r.Ok? <==> !ProjectName(data, create).Invalid? && !ProjectDescription(data, create).Invalid?
    ensures r.Err? ==> r.error != map[]
  {
    var name := ProjectName(data, create);
    var description := ProjectDescription(data, create);
    if !name.Invalid? && !description.Invalid? then Ok(ProjectInput(Opt(name), Opt(description)))
    else
      var errors := ErrorOf("description", description) + ErrorOf("name", name);
      assert name.Invalid? ==> "name" in errors;
      assert description.Invalid? ==> "description" in errors;
      Err(errors)
  }

  /** On create both fields come out (the description "" by default); on
      update exactly the fields sent; an accepted name is 1 to 255
      characters. */
  lemma ProjectFieldsAccepted(data: map<string, Json>, create: bool)
    requires ProjectFields(data, create).Ok?
    ensures var v := ProjectFields(data, create).value;
      (create ==> v.name.Some? && v.description.Some?)
      && (create && "description" !in data ==> v.description == Some(""))
      && (!create ==> (v.name.Some? <==> "name" in data) && (v.description.Some? <==> "description" in data))
      && (v.name.Some? ==> 1 <= |v.name.value| <= 255)
  {
    assert !ProjectName(data, create).Skip? || (!create && "name" !in data);
  }

  /** On create a missing name is reported as required. */
  lemma ProjectNameRequired(data: map<string, Json>)
    requires "name" !in data
    ensures ProjectFields(data, true).Err?
    ensures var e := ProjectFields(data, true).error; "name" in e && e["name"] == Codes(["required"])
  {
    assert ProjectName(data, true) == Fail("required");
  }
}

/** The input serializers of apps/tags/serializers.py. */
module TagSerializers {
  import opened Base
  import opened Json
  import opened Models
  import opened Fields

  predicate IsHexDigit(c: char)
  {
    '0' <= c <= '9' || 'a' <= c <= 'f' || 'A' <= c <= 'F'
  }

  /** The colour regex `^#[0-9A-Fa-f]{6}$`. */
  predicate IsHexColor(s: string)
  {
    |s| == 7 && s[0] == '#' && forall i :: 1 <= i < 7 ==> IsHexDigit(s[i])
  }

  /** The default colour is itself a valid colour. */
  lemma DefaultColorIsValid()
    ensures IsHexColor(DefaultTagColor)
  {
  }

  /** The colour `RegexField`: a CharField (stripped, not blank) whose
      value must then match the regex. */
  function ColorField(raw: Option<Json>, default: Option<string>): (r: Outcome<string>)
    ensures raw.None? ==> r == (if default.Some? then Value(default.value) else Skip)
    ensures raw.Some? ==> !r.Skip?
    ensures r.Value? && raw.Some? ==> IsHexColor(r.v)
  {
    var o := CharField(raw, false, default, false, 0, None);
    if raw.Some? && o == Fail("null_characters_not_allowed") then Invalid(Codes(["null_characters_not_allowed", "invalid"]))
    else if raw.Some? && o.Value? && !IsHexColor(o.v) then Fail("invalid")
    else o
  }

  /** A colour already in the format is kept as sent, in either case. */
  lemma ColorKeptAsSent(s: string)
    requires IsHexColor(s)
    ensures ColorField(Some(JStr(s)), None) == Value(s)
  {
    assert s[0] == '#' && IsHexDigit(s[6]) && !IsSpace(s[0]) && !IsSpace(s[6]);
    StripStripped(s);
  }

  const TagNameEmptyMessage := "Название тега не может быть пустым"

  /** `CharField(max_length=50, min_length=1)` followed by `validate_name`,
      which strips the value and rejects it when nothing is left. */
  function TagNameField(raw: Option<Json>, required: bool): (r: Outcome<string>)
    ensures raw.None? ==> r == (if required then Fail("required") else Skip)
    ensures raw.Some? ==> !r.Skip?
    ensures r.Value? ==> 1 <= |r.v| <= 50 && Strip(r.v) == r.v
  {
    var o := CharField(raw, required, None, false, 1, Some(50));
    if !o.Value? then o
    else if Strip(o.v) == "" then Invalid(Message(TagNameEmptyMessage))
    else StripIdempotent(o.v); Value(Strip(o.v))
  }

  /** The field has already stripped the name and refused a blank one, so
      the check in `validate_name` never rejects anything. */
  lemma ValidateNameNeverRejects(raw: Option<Json>, required: bool)
    ensures TagNameField(raw, required) != Invalid(Message(TagNameEmptyMessage))
  {
  }

  datatype TagInput = TagInput(name: Option<string>, color: Option<string>)

  function TagName(data: map<string, Json>, create: bool): Outcome<string>
  {
    TagNameField(Raw(data, "name"), create)
  }

  function TagColor(data: map<string, Json>, create: bool): Outcome<string>
  {
    ColorField(Raw(data, "color"), if create then Some(DefaultTagColor) else None)
  }

  /** The validated data from the two outcomes, or the error dictionary of
      the failing ones. */
  function TagInputOf(name: Outcome<string>, color: Outcome<string>): (r: Result<TagInput, Errors>)
    ensures r.Ok? <==> !name.Invalid? && !color.Invalid?
    ensures r.Ok? ==> r.value == TagInput(Opt(name), Opt(color))
    ensures r.Err? ==> r.error != map[] && (name.Invalid? ==> "name" in r.error && r.error["name"] == name.err)
  {
    if !name.Invalid? && !color.Invalid? then Ok(TagInput(Opt(name), Opt(color)))
    else
      var errors := ErrorOf("color", color) + ErrorOf("name", name);
      assert name.Invalid? ==> "name" in errors;
      assert color.Invalid? ==> "color" in errors;
      Err(errors)
  }

  /** `TagCreateSerializer` (`create`) and `TagUpdateSerializer`:
      accepted exactly when the name and the colour pass. */
  function TagFields(data: map<string, Json>, create: bool): (r: Result<TagInput, Errors>)
    ensures r.Ok? <==> !TagName(data, create).Invalid? && !TagColor(data, create).Invalid?
    ensures r.Err? ==> r.error != map[]
  {
    TagInputOf(TagName(data, create), TagColor(data, create))
  }

  /** An accepted name is stripped and 1 to 50 characters long. */
  lemma AcceptedNameIsValid(data: map<string, Json>, create: bool)
    requires TagFields(data, create).Ok?
    ensures var v := TagFields(data, create).value;
      v.name.Some? ==> 1 <= |v.name.value| <= 50 && Strip(v.name.value) == v.name.value
  {
    assert TagFields(data, create) == TagInputOf(TagName(data, create), TagColor(data, create));
  }

  /** An accepted colour, sent or defaulted, is in the format. */
  lemma AcceptedColorIsValid(data: map<string, Json>, create: bool)
    requires TagFields(data, create).Ok?
    ensures var v := TagFields(data, create).value; v.color.Some? ==> IsHexColor(v.color.value)
  {
    assert TagFields(data, create) == TagInputOf(TagName(data, create), TagColor(data, create));
    DefaultColorIsValid();
  }

  lemma CreateHasName(data: map<string, Json>)
    requires TagFields(data, true).Ok?
    ensures TagFields(data, true).value.name.Some?
  {
    assert TagFields(data, true) == TagInputOf(TagName(data, true), TagColor(data, true));
  }

  lemma CreateHasColor(data: map<string, Json>)
    requires TagFields(data, true).Ok?
    ensures TagFields(data, true).value.color.Some?
    ensures "color" !in data ==> TagFields(data, true).value.color == Some(DefaultTagColor)
  {
    assert TagFields(data, true) == TagInputOf(TagName(data, true), TagColor(data, true));
  }

  /** On create both fields come out, the colour #6B7280 when none is
      sent. */
  lemma TagCreateFields(data: map<string, Json>)
    requires TagFields(data, true).Ok?
    ensures var v := TagFields(data, true).value;
      v.name.Some? && v.color.Some? && ("color" !in data ==> v.color == Some(DefaultTagColor))
  {
    CreateHasName(data);
    CreateHasColor(data);
  }

  /** On update exactly the fields sent come out. */
  lemma TagUpdateFields(data: map<string, Json>)
    requires TagFields(data, false).Ok?
    ensures var v := TagFields(data, false).value;
      (v.name.Some? <==> "name" in data) && (v.color.Some? <==> "color" in data)
  {
    UpdateNameSent(data);
    UpdateColorSent(data);
  }

  lemma UpdateNameSent(data: map<string, Json>)
    requires TagFields(data, false).Ok?
    ensures TagFields(data, false).value.name.Some? <==> "name" in data
  {
    assert TagFields(data, false) == TagInputOf(TagName(data, false), TagColor(data, false));
  }

  lemma UpdateColorSent(data: map<string, Json>)
    requires TagFields(data, false).Ok?
    ensures TagFields(data, false).value.color.Some? <==> "color" in data
  {
    assert TagFields(data, false) == TagInputOf(TagName(data, false), TagColor(data, false));
  }

  /** On create a missing name is reported as required. */
  lemma TagNameRequired(data: map<string, Json>)
    requires "name" !in data
    ensures TagFields(data, true).Err?
    ensures var e := TagFields(data, true).error; "name" in e && e["name"] == Codes(["required"])
  {
    assert TagName(data, true) == Fail("required");
  }
}
