/** The task service: argument vectors for each verb, the call sequence each
    verb makes on the executor, and the defensive parse of the export listing. */
module TaskService {
  import opened Wrappers
  import opened Failures
  import opened Json
  import opened Timestamps
  import opened TaskModel
  import opened Executor

  // =====================================================================
  // Parsing the export listing

  /** A record is kept iff "uuid", "description" and "status" are strings. */
  predicate IsTaskRecord(rec: Record) {
    AsString(rec, "uuid").Some? && AsString(rec, "description").Some? && AsString(rec, "status").Some?
  }

  /** A date field: None unless it is a string that matches the compact pattern. */
  function DateField(rec: Record, key: string): Option<Timestamp> {
    match AsString(rec, key)
    case None => None
    case Some(text) => ParseCompact(text)
  }

  /** The task built from a kept record. */
  function ExtractTask(rec: Record): TWTask
    requires IsTaskRecord(rec)
  {
    TWTask(
      uuid := AsString(rec, "uuid").value,
      title := AsString(rec, "description").value,
      project := AsString(rec, "project"),
      age := DateField(rec, "entry"),
      due := DateField(rec, "due"),
      priority := AsString(rec, "priority"),
      status := AsString(rec, "status").value,
      tags := AsStringArray(rec, "tags").GetOr([]),
      comment := None)
  }

  /** The closure given to `compactMap`. */
  function ParseRecord(rec: Record): Option<TWTask> {
    if IsTaskRecord(rec) then Some(ExtractTask(rec)) else None
  }

  /** `compactMap` over the records. */
  function ParseRecords(rs: seq<Record>): seq<TWTask> {
    if rs == [] then []
    else
      match ParseRecord(rs[0])
      case Some(t) => [t] + ParseRecords(rs[1..])
      case None => ParseRecords(rs[1..])
  }

  /** `parseTasks`: a listing that is not JSON is thrown as a syntax error,
      valid JSON that is not an array of objects traps on the `as!` cast. */
  function ParsePayload(p: Payload): Result<seq<TWTask>, Error> {
    match p
    case Records(rs) => Success(ParseRecords(rs))
    case NotRecordArray => Failure(Trap("as! [[String: Any]]"))
    case Unparseable(_) => Failure(JsonSyntaxError)
  }

  /** Each field of a kept task comes from its record: the title from
      "description"; project and priority only when they are strings; tags
      only when they are an array of strings, else empty; each date is the
      compact-pattern reading of its string, when there is one; never a comment. */
  lemma ExtractedFields(rec: Record)
    requires IsTaskRecord(rec)
    ensures var t := ExtractTask(rec);
      && rec["uuid"] == JString(t.uuid)
      && rec["description"] == JString(t.title)
      && rec["status"] == JString(t.status)
      && (t.project.Some? <==> "project" in rec && rec["project"].JString?)
      && (t.project.Some? ==> rec["project"] == JString(t.project.value))
      && (t.priority.Some? <==> "priority" in rec && rec["priority"].JString?)
      && (t.priority.Some? ==> rec["priority"] == JString(t.priority.value))
      && t.tags == (if "tags" in rec && rec["tags"].JArray? && Strings(rec["tags"].items).Some?
                    then Strings(rec["tags"].items).value else [])
      && ("tags" in rec && rec["tags"].JArray? && t.tags != [] ==>
            |t.tags| == |rec["tags"].items| && forall i | 0 <= i < |t.tags| :: rec["tags"].items[i] == JString(t.tags[i]))
      && t.age == (if "entry" in rec && rec["entry"].JString? then ParseCompact(rec["entry"].s) else None)
      && t.due == (if "due" in rec && rec["due"].JString? then ParseCompact(rec["due"].s) else None)
      && t.comment.None?
  {
  }

  /** Parsing works record by record: the listing of a concatenation is the
      concatenation of the listings, so the output keeps the input order. */
  lemma {:induction false} ParseRecordsAppend(a: seq<Record>, b: seq<Record>)
    ensures ParseRecords(a + b) == ParseRecords(a) + ParseRecords(b)
  {
    if a == [] {
      assert a + b == b;
    } else {
      assert (a + b)[0] == a[0];
      assert (a + b)[1..] == a[1..] + b;
      ParseRecordsAppend(a[1..], b);
    }
  }

  /** A single record yields its task when it is kept, else nothing. */
  lemma ParseSingleRecord(rec: Record)
    ensures ParseRecords([rec]) == if IsTaskRecord(rec) then [ExtractTask(rec)] else []
  {
    assert [rec][1..] == [];
  }

  /** The indices of the records that are kept. */
  function KeptIndices(rs: seq<Record>): set<nat> {
    set i: nat | i < |rs| && IsTaskRecord(rs[i])
  }

  /** N records of which K are malformed parse to N - K tasks. */
  lemma {:induction false} ParseRecordsCount(rs: seq<Record>)
    ensures |ParseRecords(rs)| == |KeptIndices(rs)|
    decreases |rs|
  {
    if rs != [] {
      var n := |rs| - 1;
      var front := rs[..n];
      assert rs == front + [rs[n]];
      ParseRecordsAppend(front, [rs[n]]);
      ParseSingleRecord(rs[n]);
      ParseRecordsCount(front);
      if IsTaskRecord(rs[n]) {
        assert KeptIndices(rs) == KeptIndices(front) + {n};
      } else {
        assert KeptIndices(rs) == KeptIndices(front);
      }
    }
  }

  /** A task is in the listing iff some kept record yields it. */
  lemma {:induction false} ParsedTaskOrigin(rs: seq<Record>, t: TWTask)
    ensures t in ParseRecords(rs) <==> exists i | 0 <= i < |rs| :: IsTaskRecord(rs[i]) && ExtractTask(rs[i]) == t
  {
    if rs != [] {
      ParsedTaskOrigin(rs[1..], t);
      if exists i | 0 <= i < |rs| :: IsTaskRecord(rs[i]) && ExtractTask(rs[i]) == t {
        var i :| 0 <= i < |rs| && IsTaskRecord(rs[i]) && ExtractTask(rs[i]) == t;
        if i > 0 {
          assert rs[1..][i - 1] == rs[i];
        }
      }
    }
  }

  /** The first task of a non-empty listing is the first kept record's. */
  lemma {:induction false} FirstParsedTask(rs: seq<Record>)
    requires ParseRecords(rs) != []
    ensures exists i | 0 <= i < |rs| ::
      && IsTaskRecord(rs[i])
      && (forall j | 0 <= j < i :: !IsTaskRecord(rs[j]))
      && ParseRecords(rs)[0] == ExtractTask(rs[i])
  {
    if !IsTaskRecord(rs[0]) {
      FirstParsedTask(rs[1..]);
      var i :| 0 <= i < |rs[1..]| && IsTaskRecord(rs[1..][i])
        && (forall j | 0 <= j < i :: !IsTaskRecord(rs[1..][j]))
        && ParseRecords(rs[1..])[0] == ExtractTask(rs[1..][i]);
      assert forall j | 0 < j < i + 1 :: rs[j] == rs[1..][j - 1];
    }
  }

  /** The listing is empty iff no record is kept. */
  lemma EmptyListing(rs: seq<Record>)
    ensures ParseRecords(rs) == [] <==> forall i | 0 <= i < |rs| :: !IsTaskRecord(rs[i])
  {
    ParseRecordsCount(rs);
    if exists i | 0 <= i < |rs| :: IsTaskRecord(rs[i]) {
      var i :| 0 <= i < |rs| && IsTaskRecord(rs[i]);
      assert i in KeptIndices(rs);
    } else {
      assert KeptIndices(rs) == {};
    }
  }

  /** The canned listing's one record has no "uuid", so it is dropped. */
  lemma CannedExportIsDropped()
    ensures ParsePayload(CannedExport) == Success([])
  {
    assert "uuid" !in CannedExportRecord;
    assert !IsTaskRecord(CannedExportRecord);
    ParseSingleRecord(CannedExportRecord);
  }

  // ---------------------------------------------------------------------
  // The export format the parser reads, for parse-after-serialize

  /** Dates are real and the task has no comment, which export never carries. */
  predicate Exportable(t: TWTask) {
    && t.comment.None?
    && (t.age.Some? ==> Valid(t.age.value))
    && (t.due.Some? ==> Valid(t.due.value))
  }

  /** `rec` with `key` set to the string, when there is one. */
  function WithString(rec: Record, key: string, v: Option<string>): Record {
    if v.Some? then rec[key := JString(v.value)] else rec
  }

  /** `rec` with `key` set to the compact form of the date, when there is one. */
  function WithDate(rec: Record, key: string, v: Option<Timestamp>): Record {
    if v.Some? then rec[key := JString(FormatCompact(v.value))] else rec
  }

  function TagArray(tags: seq<string>): (r: JsonValue)
    ensures r.JArray? && Strings(r.items) == Some(tags)
  {
    var items := seq(|tags|, i requires 0 <= i < |tags| => JString(tags[i]));
    assert Strings(items).Some? && Strings(items).value == tags;
    JArray(items)
  }

  /** The record the task tool writes for a task. */
  function TaskRecord(t: TWTask): Record {
    var required := map["uuid" := JString(t.uuid), "description" := JString(t.title),
                        "status" := JString(t.status), "tags" := TagArray(t.tags)];
    WithDate(WithDate(WithString(WithString(required, "project", t.project), "priority", t.priority),
                      "entry", t.age), "due", t.due)
  }

  /** The required keys of an exported record. */
  lemma TaskRecordRequired(t: TWTask)
    ensures var rec := TaskRecord(t);
      && AsString(rec, "uuid") == Some(t.uuid)
      && AsString(rec, "description") == Some(t.title)
      && AsString(rec, "status") == Some(t.status)
      && AsStringArray(rec, "tags") == Some(t.tags)
  {
  }

  /** The optional keys of an exported record. */
  lemma TaskRecordOptional(t: TWTask)
    ensures var rec := TaskRecord(t);
      && AsString(rec, "project") == t.project
      && AsString(rec, "priority") == t.priority
      && AsString(rec, "entry") == CompactText(t.age)
      && AsString(rec, "due") == CompactText(t.due)
  {
  }

  function CompactText(v: Option<Timestamp>): Option<string> {
    if v.Some? then Some(FormatCompact(v.value)) else None
  }

  function TaskRecords(ts: seq<TWTask>): (rs: seq<Record>)
    ensures |rs| == |ts| && forall i | 0 <= i < |ts| :: rs[i] == TaskRecord(ts[i])
  {
    seq(|ts|, i requires 0 <= i < |ts| => TaskRecord(ts[i]))
  }

  /** Parsing the exported form of a task gives the task back. */
  lemma ParseTaskRecord(t: TWTask)
    requires Exportable(t)
    ensures IsTaskRecord(TaskRecord(t)) && ExtractTask(TaskRecord(t)) == t
  {
    TaskRecordRequired(t);
    TaskRecordOptional(t);
    if t.age.Some? { CompactRoundTrip(t.age.value); }
    if t.due.Some? { CompactRoundTrip(t.due.value); }
  }

  /** Parsing the exported form of a listing gives the listing back. */
  lemma {:induction false} ParseExportedListing(ts: seq<TWTask>)
    requires forall i | 0 <= i < |ts| :: Exportable(ts[i])
    ensures ParseRecords(TaskRecords(ts)) == ts
  {
    if ts != [] {
      ParseTaskRecord(ts[0]);
      assert TaskRecords(ts)[1..] == TaskRecords(ts[1..]);
      ParseExportedListing(ts[1..]);
    }
  }

  // =====================================================================
  // Argument vectors

  function UuidToken(uuid: string): string {
    "uuid:" + uuid
  }

  /** The token v when it is present, else nothing. */
  function Present(v: Option<string>): seq<string> {
    if v.Some? then [v.value] else []
  }

  /** `prefix + v` when v is present, else nothing. */
  function Optional(prefix: string, v: Option<string>): seq<string> {
    if v.Some? then [prefix + v.value] else []
  }

  function TagTokens(tags: seq<string>): (r: seq<string>)
    ensures |r| == |tags| && forall i | 0 <= i < |tags| :: r[i] == "+" + tags[i]
  {
    seq(|tags|, i requires 0 <= i < |tags| => "+" + tags[i])
  }

  function ListArgs(filter: Option<string>): seq<string> {
    if filter.Some? then ["export", filter.value] else ["export"]
  }

  function GetArgs(uuid: string): seq<string> {
    ["export", UuidToken(uuid)]
  }

  function DueToken(due: Option<Timestamp>): seq<string> {
    if due.Some? then ["due:" + FormatIso8601(due.value)] else []
  }

  function AddArgs(input: TaskInput): seq<string> {
    ["add", input.title]
      + Optional("project:", input.project)
      + DueToken(input.due)
      + Optional("priority:", input.priority)
      + TagTokens(input.tags.GetOr([]))
  }

  /** The modifier tokens of a patch, in their fixed order. */
  function ModifierTokens(update: TaskUpdate): seq<string> {
    Optional("project:", update.project)
      + Optional("status:", update.status)
      + Optional("priority:", update.priority)
      + Optional("annotate:", update.comment)
  }

  function ModifyArgs(uuid: string, update: TaskUpdate): seq<string> {
    [UuidToken(uuid), "modify"] + Present(update.title) + ModifierTokens(update)
  }

  function DeleteArgs(uuid: string): seq<string> {
    [UuidToken(uuid), "delete", "--yes"]
  }

  /** The list vector is `export` followed by the filter token, if any. */
  lemma ListArgsShape(filter: Option<string>)
    ensures filter.None? ==> ListArgs(filter) == ["export"]
    ensures filter.Some? ==> ListArgs(filter) == ["export", filter.value]
  {
  }

  /** The add vector starts with `add` and the title and ends with one
      `+tag` token per tag, in input order. */
  lemma AddArgsShape(input: TaskInput)
    ensures var args, tags := AddArgs(input), input.tags.GetOr([]);
      && |args| >= 2 + |tags|
      && args[..2] == ["add", input.title]
      && args[|args| - |tags|..] == TagTokens(tags)
  {
  }

  // ---------------------------------------------------------------------
  // A left inverse of the vector builders: slot 1 of an add vector is read
  // as the title, whatever its shape

  /** Takes the leading token when it starts with `prefix`, returning its rest. */
  function TakePrefixed(prefix: string, args: seq<string>): (Option<string>, seq<string>) {
    if |args| > 0 && prefix <= args[0] then (Some(args[0][|prefix|..]), args[1..]) else (None, args)
  }

  /** The tags of a run of `+tag` tokens; None if some token is not one. */
  function Untag(tokens: seq<string>): Option<seq<string>> {
    if tokens == [] then Some([])
    else if |tokens[0]| == 0 || tokens[0][0] != '+' then None
    else match Untag(tokens[1..])
      case None => None
      case Some(rest) => Some([tokens[0][1..]] + rest)
  }

  /** The payload an add vector describes. */
  function ReadAddArgs(args: seq<string>): Option<TaskInput> {
    if |args| < 2 || args[0] != "add" then None
    else
      var (project, rest1) := TakePrefixed("project:", args[2..]);
      var (dueText, rest2) := TakePrefixed("due:", rest1);
      var (priority, rest3) := TakePrefixed("priority:", rest2);
      var due := if dueText.Some? then ParseIso8601(dueText.value) else None;
      var tags := Untag(rest3);
      if (dueText.Some? && due.None?) || tags.None? then None
      else Some(TaskInput(args[1], project, due, priority, tags))
  }

  lemma {:induction false} UntagTagTokens(tags: seq<string>)
    ensures Untag(TagTokens(tags)) == Some(tags)
  {
    var tokens := TagTokens(tags);
    if tags != [] {
      assert tokens[0] == "+" + tags[0];
      assert tokens[0][0] == '+';
      assert tokens[0][1..] == tags[0];
      assert tokens[1..] == TagTokens(tags[1..]);
      UntagTagTokens(tags[1..]);
      assert [tags[0]] + tags[1..] == tags;
    }
  }

  /** The first token of `rest`, if any, does not start with `prefix`. */
  predicate HeadLacks(prefix: string, rest: seq<string>) {
    rest == [] || !(prefix <= rest[0])
  }

  /** An optional part is read back when the token after it is of another kind. */
  lemma TakeOptional(prefix: string, v: Option<string>, rest: seq<string>)
    requires HeadLacks(prefix, rest)
    ensures TakePrefixed(prefix, Optional(prefix, v) + rest) == (v, rest)
  {
    if v.Some? {
      var token := prefix + v.value;
      assert prefix <= token;
      assert token[|prefix|..] == v.value;
      assert ([token] + rest)[1..] == rest;
    } else {
      assert Optional(prefix, v) + rest == rest;
    }
  }

  /** Two prefixes that differ at position k never start the same token. */
  lemma HeadLacksAfter(prefix: string, other: string, v: Option<string>, rest: seq<string>, k: nat)
    requires k < |prefix| && k < |other| && prefix[k] != other[k]
    requires HeadLacks(prefix, rest)
    ensures HeadLacks(prefix, Optional(other, v) + rest)
  {
    if v.Some? {
      var token := other + v.value;
      assert token[k] == other[k];
      assert (Optional(other, v) + rest)[0] == token;
    } else {
      assert Optional(other, v) + rest == rest;
    }
  }

  /** A `+tag` token does not start with a prefix that does not start with '+'. */
  lemma HeadLacksTags(prefix: string, tags: seq<string>)
    requires |prefix| > 0 && prefix[0] != '+'
    ensures HeadLacks(prefix, TagTokens(tags))
  {
    if tags != [] {
      assert TagTokens(tags)[0][0] == '+';
    }
  }

  function IsoText(due: Option<Timestamp>): Option<string> {
    if due.Some? then Some(FormatIso8601(due.value)) else None
  }

  /** Every add vector names exactly the payload it was built from: each
      optional part appears iff present, in the fixed order, tags in order. */
  lemma AddArgsRoundTrip(input: TaskInput)
    requires input.due.Some? ==> Valid(input.due.value)
    ensures ReadAddArgs(AddArgs(input)) == Some(input.(tags := Some(input.tags.GetOr([]))))
  {
    var tags := input.tags.GetOr([]);
    var tail3 := TagTokens(tags);
    var tail2 := Optional("priority:", input.priority) + tail3;
    var tail1 := Optional("due:", IsoText(input.due)) + tail2;
    var tail0 := Optional("project:", input.project) + tail1;
    assert DueToken(input.due) == Optional("due:", IsoText(input.due));
    assert AddArgs(input) == ["add", input.title] + tail0;
    assert AddArgs(input)[2..] == tail0;
    HeadLacksTags("priority:", tags);
    TakeOptional("priority:", input.priority, tail3);
    HeadLacksTags("due:", tags);
    HeadLacksAfter("due:", "priority:", input.priority, tail3, 0);
    TakeOptional("due:", IsoText(input.due), tail2);
    HeadLacksTags("project:", tags);
    HeadLacksAfter("project:", "priority:", input.priority, tail3, 2);
    HeadLacksAfter("project:", "due:", IsoText(input.due), tail2, 0);
    TakeOptional("project:", input.project, tail1);
    if input.due.Some? {
      Iso8601RoundTrip(input.due.value);
    }
    UntagTagTokens(tags);
  }

  /** Tokens a bare title could be mistaken for: the modifier tokens. */
  predicate LooksLikeModifier(token: string) {
    "project:" <= token || "status:" <= token || "priority:" <= token || "annotate:" <= token
  }

  /** The patch that the modifier tokens describe, with the given title. */
  function ReadModifiers(tokens: seq<string>, title: Option<string>): Option<TaskUpdate> {
    var (project, rest1) := TakePrefixed("project:", tokens);
    var (status, rest2) := TakePrefixed("status:", rest1);
    var (priority, rest3) := TakePrefixed("priority:", rest2);
    var (comment, rest4) := TakePrefixed("annotate:", rest3);
    if rest4 != [] then None else Some(TaskUpdate(title, project, status, priority, comment))
  }

  /** The id and patch a modify vector describes, the bare token before the
      modifiers being the title. */
  function ReadModifyArgs(args: seq<string>): Option<(string, TaskUpdate)> {
    if |args| < 2 || !("uuid:" <= args[0]) || args[1] != "modify" then None
    else
      var rest := args[2..];
      var update :=
        if |rest| > 0 && !LooksLikeModifier(rest[0]) then ReadModifiers(rest[1..], Some(rest[0]))
        else ReadModifiers(rest, None);
      if update.None? then None else Some((args[0][5..], update.value))
  }

  lemma ModifierTokensRoundTrip(update: TaskUpdate)
    ensures ReadModifiers(ModifierTokens(update), update.title) == Some(update)
  {
    var t4: seq<string> := [];
    var t3 := Optional("annotate:", update.comment) + t4;
    var t2 := Optional("priority:", update.priority) + t3;
    var t1 := Optional("status:", update.status) + t2;
    var t0 := Optional("project:", update.project) + t1;
    assert Optional("annotate:", update.comment) + t4 == Optional("annotate:", update.comment);
    assert ModifierTokens(update) == t0;
    TakeOptional("annotate:", update.comment, t4);
    HeadLacksAfter("priority:", "annotate:", update.comment, t4, 0);
    TakeOptional("priority:", update.priority, t3);
    HeadLacksAfter("status:", "annotate:", update.comment, t4, 0);
    HeadLacksAfter("status:", "priority:", update.priority, t3, 0);
    TakeOptional("status:", update.status, t2);
    HeadLacksAfter("project:", "annotate:", update.comment, t4, 0);
    HeadLacksAfter("project:", "priority:", update.priority, t3, 2);
    HeadLacksAfter("project:", "status:", update.status, t2, 0);
    TakeOptional("project:", update.project, t1);
  }

  /** The first modifier token, if any, looks like a modifier. */
  lemma ModifierTokensHead(update: TaskUpdate)
    ensures ModifierTokens(update) != [] ==> LooksLikeModifier(ModifierTokens(update)[0])
  {
    var tokens := ModifierTokens(update);
    if update.project.Some? {
      assert tokens[0] == "project:" + update.project.value;
    } else if update.status.Some? {
      assert tokens[0] == "status:" + update.status.value;
    } else if update.priority.Some? {
      assert tokens[0] == "priority:" + update.priority.value;
    } else if update.comment.Some? {
      assert tokens[0] == "annotate:" + update.comment.value;
    }
  }

  /** A modify vector names exactly its id and patch, provided the new title
      does not itself look like a modifier token. */
  lemma ModifyArgsRoundTrip(uuid: string, update: TaskUpdate)
    requires update.title.Some? ==> !LooksLikeModifier(update.title.value)
    ensures ReadModifyArgs(ModifyArgs(uuid, update)) == Some((uuid, update))
  {
    var args := ModifyArgs(uuid, update);
    var tokens := ModifierTokens(update);
    assert "uuid:" <= UuidToken(uuid) && UuidToken(uuid)[5..] == uuid;
    ModifierTokensRoundTrip(update);
    ModifierTokensHead(update);
    if update.title.Some? {
      assert args[2..] == [update.title.value] + tokens;
      assert args[2..][1..] == tokens;
    } else {
      assert args[2..] == tokens;
    }
  }

  /** The title is passed as a bare token, so a title shaped like a modifier
      gives the same vector as that modifier: the two patches below differ,
      their commands do not. */
  lemma ModifierShapedTitle(uuid: string)
    ensures TitleUpdate("status:completed") != EmptyUpdate.(status := Some("completed"))
    ensures ModifyArgs(uuid, TitleUpdate("status:completed")) == ModifyArgs(uuid, EmptyUpdate.(status := Some("completed")))
  {
    assert "status:" + "completed" == "status:completed";
  }

  // =====================================================================
  // What each verb does to the executor

  function ParseReply(reply: Result<Payload, Error>): Result<seq<TWTask>, Error> {
    match reply
    case Failure(e) => Failure(e)
    case Success(p) => ParsePayload(p)
  }

  /** A reply ends in a trap exactly when it is valid JSON that is not an
      array of objects: the executor never throws a trap, and the other
      parse failure is a thrown syntax error. */
  lemma ParseReplyTraps(reply: Result<Payload, Thrown>)
    ensures var r := ParseReply(reply);
      (r.Failure? && r.error.Trap?) <==> reply == Success(NotRecordArray)
  {
  }

  function GetTasksCall(st: ExecState, filter: Option<string>, sort: Option<string>): Exec<seq<TWTask>> {
    var e := Step(st, ListArgs(filter));
    Exec(e.after, ParseReply(e.result))
  }

  function GetTaskCall(st: ExecState, uuid: string): Exec<TWTask> {
    var e := Step(st, GetArgs(uuid));
    match ParseReply(e.result)
    case Failure(err) => Exec(e.after, Failure(err))
    case Success(ts) => Exec(e.after, if ts == [] then Failure(TaskNotFound) else Success(ts[0]))
  }

  const EmptyListingTrap: Error := Trap("tasks.last! on an empty listing")

  function CreateTaskCall(st: ExecState, input: TaskInput): Exec<TWTask> {
    var add := Step(st, AddArgs(input));
    if add.result.Failure? then Exec(add.after, Failure(add.result.error))
    else
      var list := GetTasksCall(add.after, None, None);
      match list.result
      case Failure(err) => Exec(list.after, Failure(err))
      case Success(ts) => Exec(list.after, if ts == [] then Failure(EmptyListingTrap) else Success(ts[|ts| - 1]))
  }

  function UpdateTaskCall(st: ExecState, uuid: string, update: TaskUpdate): Exec<TWTask> {
    var modifyCall := Step(st, ModifyArgs(uuid, update));
    if modifyCall.result.Failure? then Exec(modifyCall.after, Failure(modifyCall.result.error))
    else GetTaskCall(modifyCall.after, uuid)
  }

  function DeleteTaskCall(st: ExecState, uuid: string): Exec<()> {
    var e := Step(st, DeleteArgs(uuid));
    Exec(e.after, if e.result.Failure? then Failure(e.result.error) else Success(()))
  }

  /** The state after the given calls were recorded, scripts untouched. */
  function Logged(st: ExecState, calls: seq<seq<string>>): ExecState {
    st.(commands := st.commands + calls)
  }

  /** `getTasks` makes one call, `export` plus the filter; the sort argument
      changes nothing. */
  lemma GetTasksOneCall(st: ExecState, filter: Option<string>, sort: Option<string>, otherSort: Option<string>)
    ensures GetTasksCall(st, filter, sort).after == Logged(st, [ListArgs(filter)])
    ensures GetTasksCall(st, filter, sort) == GetTasksCall(st, filter, otherSort)
  {
  }

  /** `getTask` makes one call, `export uuid:<id>`. A thrown call is passed
      through. When the tool answers with records, it fails with not-found iff
      no record is kept, and otherwise returns the first kept record's task;
      any other answer fails as `parseTasks` does. */
  lemma GetTaskOneCall(st: ExecState, uuid: string)
    ensures GetTaskCall(st, uuid).after == Logged(st, [["export", "uuid:" + uuid]])
    ensures Reply(st, GetArgs(uuid)).Failure? ==> GetTaskCall(st, uuid).result == Failure(Reply(st, GetArgs(uuid)).error)
    ensures Reply(st, GetArgs(uuid)).Success? && Reply(st, GetArgs(uuid)).value.Records? ==>
      var rs := Reply(st, GetArgs(uuid)).value.records;
      var r := GetTaskCall(st, uuid).result;
      && (r == Failure(TaskNotFound) <==> forall i | 0 <= i < |rs| :: !IsTaskRecord(rs[i]))
      && ((exists i | 0 <= i < |rs| :: IsTaskRecord(rs[i])) ==>
            exists i | 0 <= i < |rs| ::
              IsTaskRecord(rs[i]) && (forall j | 0 <= j < i :: !IsTaskRecord(rs[j])) && r == Success(ExtractTask(rs[i])))
    ensures Reply(st, GetArgs(uuid)).Success? && !Reply(st, GetArgs(uuid)).value.Records? ==>
      GetTaskCall(st, uuid).result == Failure(ParsePayload(Reply(st, GetArgs(uuid)).value).error)
  {
    var reply := Reply(st, GetArgs(uuid));
    if reply.Success? && reply.value.Records? {
      var rs := reply.value.records;
      EmptyListing(rs);
      if ParseRecords(rs) != [] {
        FirstParsedTask(rs);
      }
    }
  }

  /** `createTask` makes the add call and, only if it succeeds, one plain
      `export`. Then the listing decides: a failure is passed through, an
      empty listing traps on `tasks.last!`, and otherwise the last task is
      returned. */
  lemma CreateTaskCalls(st: ExecState, input: TaskInput)
    ensures var add := Reply(st, AddArgs(input));
      var r := CreateTaskCall(st, input);
      && (add.Failure? ==> r.after == Logged(st, [AddArgs(input)]) && r.result == Failure(add.error))
      && (add.Success? ==> r.after == Logged(st, [AddArgs(input), ["export"]]))
      && (add.Success? ==>
            var listed := ParseReply(Reply(Logged(st, [AddArgs(input)]), ["export"]));
            r.result == match listed
              case Failure(e) => Failure(e)
              case Success(ts) => if ts == [] then Failure(EmptyListingTrap) else Success(ts[|ts| - 1]))
  {
    assert st.commands + [AddArgs(input)] + [["export"]] == st.commands + [AddArgs(input), ["export"]];
  }

  /** `updateTask` makes the modify call and, only if it succeeds, the
      read-back `export uuid:<id>`, whose answer it returns. */
  lemma UpdateTaskCalls(st: ExecState, uuid: string, update: TaskUpdate)
    ensures var modifyReply := Reply(st, ModifyArgs(uuid, update));
      var r := UpdateTaskCall(st, uuid, update);
      && (modifyReply.Failure? ==> r.after == Logged(st, [ModifyArgs(uuid, update)]) && r.result == Failure(modifyReply.error))
      && (modifyReply.Success? ==>
            && r.after == Logged(st, [ModifyArgs(uuid, update), ["export", "uuid:" + uuid]])
            && r == GetTaskCall(Logged(st, [ModifyArgs(uuid, update)]), uuid))
  {
    assert st.commands + [ModifyArgs(uuid, update)] + [["export", "uuid:" + uuid]]
        == st.commands + [ModifyArgs(uuid, update), ["export", "uuid:" + uuid]];
  }

  /** `deleteTask` makes one call and succeeds iff that call does. */
  lemma DeleteTaskOneCall(st: ExecState, uuid: string)
    ensures DeleteTaskCall(st, uuid).after == Logged(st, [["uuid:" + uuid, "delete", "--yes"]])
    ensures DeleteTaskCall(st, uuid).result.Success? <==> Reply(st, DeleteArgs(uuid)).Success?
  {
  }

  /** With nothing scripted, a listing is empty: the canned record is dropped. */
  lemma UnscriptedListingIsEmpty(filter: Option<string>, sort: Option<string>)
    ensures GetTasksCall(ExecState([], [], []), filter, sort).result == Success([])
  {
    CannedExportIsDropped();
  }

  /** The script `["", "[]"]` for create: both calls are made, and the empty
      listing makes `tasks.last!` trap. */
  lemma CreateOnEmptyListingTraps(input: TaskInput)
    ensures var r := CreateTaskCall(ExecState([], [EmptyOutput, Records([])], []), input);
      r.after.commands == [AddArgs(input), ["export"]] && r.result == Failure(EmptyListingTrap)
  {
    CreateTaskCalls(ExecState([], [EmptyOutput, Records([])], []), input);
  }

  /** Creating "Test Task" when the read-back lists it returns it, pending. */
  lemma CreateReturnsListedTask(uuid: string)
    ensures var listed := Records([map["uuid" := JString(uuid), "description" := JString("Test Task"),
                                       "status" := JString("pending")]]);
      var r := CreateTaskCall(ExecState([], [EmptyOutput, listed], []), TitleInput("Test Task"));
      && r.after.commands == [["add", "Test Task"], ["export"]]
      && r.result.Success? && r.result.value.title == "Test Task" && r.result.value.status == "pending"
  {
    var rec := map["uuid" := JString(uuid), "description" := JString("Test Task"), "status" := JString("pending")];
    ParseSingleRecord(rec);
    CreateTaskCalls(ExecState([], [EmptyOutput, Records([rec])], []), TitleInput("Test Task"));
    assert AddArgs(TitleInput("Test Task")) == ["add", "Test Task"];
  }

  // =====================================================================
  // The service object

  class TaskService {
    const executor: MockTaskCommandExecutor

    constructor (executor: MockTaskCommandExecutor)
      ensures this.executor == executor
    {
      this.executor := executor;
    }

    method GetTasks(filter: Option<string>, sort: Option<string>) returns (r: Result<seq<TWTask>, Error>)
      modifies executor`executedCommands
      ensures executor.State() == GetTasksCall(old(executor.State()), filter, sort).after
      ensures r == GetTasksCall(old(executor.State()), filter, sort).result
    {
      var arguments := ["export"];
      if filter.Some? {
        arguments := arguments + [filter.value];
      }
      assert arguments == ListArgs(filter);
      var output := executor.Execute(arguments);
      if output.Failure? {
        return Failure(output.error);
      }
      r := ParsePayload(output.value);
    }

    method GetTask(uuid: string) returns (r: Result<TWTask, Error>)
      modifies executor`executedCommands
      ensures executor.State() == GetTaskCall(old(executor.State()), uuid).after
      ensures r == GetTaskCall(old(executor.State()), uuid).result
    {
      var output := executor.Execute(["export", "uuid:" + uuid]);
      if output.Failure? {
        return Failure(output.error);
      }
      var tasks := ParsePayload(output.value);
      if tasks.Failure? {
        return Failure(tasks.error);
      }
      if tasks.value == [] {
        return Failure(TaskNotFound);
      }
      r := Success(tasks.value[0]);
    }

    method CreateTask(input: TaskInput) returns (r: Result<TWTask, Error>)
      modifies executor`executedCommands
      ensures executor.State() == CreateTaskCall(old(executor.State()), input).after
      ensures r == CreateTaskCall(old(executor.State()), input).result
    {
      var arguments := ["add", input.title];
      if input.project.Some? {
        arguments := arguments + ["project:" + input.project.value];
      }
      if input.due.Some? {
        arguments := arguments + ["due:" + FormatIso8601(input.due.value)];
      }
      if input.priority.Some? {
        arguments := arguments + ["priority:" + input.priority.value];
      }
      ghost var head := arguments;
      var tags := input.tags.GetOr([]);
      for i := 0 to |tags|
        invariant arguments == head + TagTokens(tags[..i])
      {
        assert TagTokens(tags[..i + 1]) == TagTokens(tags[..i]) + ["+" + tags[i]];
        arguments := arguments + ["+" + tags[i]];
      }
      assert tags[..|tags|] == tags;
      assert arguments == AddArgs(input);

      var added := executor.Execute(arguments);
      if added.Failure? {
        return Failure(added.error);
      }
      var tasks := GetTasks(None, None);
      if tasks.Failure? {
        return Failure(tasks.error);
      }
      if tasks.value == [] {
        return Failure(EmptyListingTrap);
      }
      r := Success(tasks.value[|tasks.value| - 1]);
    }

    method UpdateTask(uuid: string, update: TaskUpdate) returns (r: Result<TWTask, Error>)
      modifies executor`executedCommands
      ensures executor.State() == UpdateTaskCall(old(executor.State()), uuid, update).after
      ensures r == UpdateTaskCall(old(executor.State()), uuid, update).result
    {
      var arguments := ["uuid:" + uuid, "modify"];
      if update.title.Some? {
        arguments := arguments + [update.title.value];
      }
      if update.project.Some? {
        arguments := arguments + ["project:" + update.project.value];
      }
      if update.status.Some? {
        arguments := arguments + ["status:" + update.status.value];
      }
      if update.priority.Some? {
        arguments := arguments + ["priority:" + update.priority.value];
      }
      if update.comment.Some? {
        arguments := arguments + ["annotate:" + update.comment.value];
      }
      assert arguments == ModifyArgs(uuid, update);

      var modified := executor.Execute(arguments);
      if modified.Failure? {
        return Failure(modified.error);
      }
      r := GetTask(uuid);
    }

    method DeleteTask(uuid: string) returns (r: Result<(), Error>)
      modifies executor`executedCommands
      ensures executor.State() == DeleteTaskCall(old(executor.State()), uuid).after
      ensures r == DeleteTaskCall(old(executor.State()), uuid).result
    {
      var output := executor.Execute(["uuid:" + uuid, "delete", "--yes"]);
      if output.Failure? {
        return Failure(output.error);
      }
      r := Success(());
    }
  }
}
