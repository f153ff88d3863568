/** The worker's input and output schemas (agent/schemas.py): field constraints as
    predicates, and Pydantic's validation of a parsed document as a function that either
    builds the record or reports the first field that fails. */
module Schemas {
  import opened Wrappers
  import opened Json

  const ExamTypes: seq<string> := ["midterm", "final", "viva"]
  const DepthTypes: seq<string> := ["short", "medium", "detailed"]

  /** `min_length` of the `content` field. */
  const ContentMinLength: nat := 20

  /** `ExamType = Literal["midterm", "final", "viva"]`. */
  predicate IsExamType(s: string) {
    s in ExamTypes
  }

  /** `DepthType = Literal["short", "medium", "detailed"]`. */
  predicate IsDepth(s: string) {
    s in DepthTypes
  }

  datatype InputSchema = InputSchema(content: string, examType: string, depth: string)

  /** The constraints of `InputSchema`; the length is that of the untrimmed content. */
  predicate ValidInput(i: InputSchema) {
    |i.content| >= ContentMinLength && IsExamType(i.examType) && IsDepth(i.depth)
  }

  /** The notes the worker produces; the lists may have any length, empty included. */
  datatype NotesOutput = NotesOutput(
    title: string,
    keyConcepts: seq<string>,
    importantPoints: seq<string>,
    examTips: seq<string>)

  /** The string stored under `key`, if the document is an object with a string there. */
  function StringMember(j: Json, key: string): (r: Option<string>)
    ensures r.Some? <==> j.JObject? && key in j.members && j.members[key].JString?
    ensures r.Some? ==> r.value == j.members[key].s
  {
    match Member(j, key)
    case Some(JString(s)) => Some(s)
    case _ => None
  }

  /** The strings of the array stored under `key`, if every element is a string. */
  function StringListMember(j: Json, key: string): (r: Option<seq<string>>)
    ensures r.Some? <==> j.JObject? && key in j.members && j.members[key].JArray?
                         && forall i :: 0 <= i < |j.members[key].items| ==> j.members[key].items[i].JString?
    ensures r.Some? ==> |r.value| == |j.members[key].items|
                        && forall i :: 0 <= i < |r.value| ==> r.value[i] == j.members[key].items[i].s
  {
    match Member(j, key)
    case Some(JArray(items)) => StringItems(items)
    case _ => None
  }

  /** What `InputSchema` accepts, field by field; keys other than the three are ignored. */
  predicate ConformsToInput(j: Json) {
    && j.JObject?
    && "content" in j.members && j.members["content"].JString?
    && |j.members["content"].s| >= ContentMinLength
    && "exam_type" in j.members && j.members["exam_type"].JString? && IsExamType(j.members["exam_type"].s)
    && "depth" in j.members && j.members["depth"].JString? && IsDepth(j.members["depth"].s)
  }

  /** `InputSchema.model_validate(parsed)`. */
  function ValidateInput(j: Json): (r: Result<InputSchema, string>)
    ensures r.Success? <==> ConformsToInput(j)
    ensures r.Success? ==> ValidInput(r.value)
    ensures r.Success? ==> r.value == InputSchema(j.members["content"].s, j.members["exam_type"].s, j.members["depth"].s)
  {
    var content, examType, depth := StringMember(j, "content"), StringMember(j, "exam_type"), StringMember(j, "depth");
    if content.None? then Failure("content: a string is required")
    else if |content.value| < ContentMinLength then Failure("content: at least 20 characters are required")
    else if examType.None? || !IsExamType(examType.value) then Failure("exam_type: one of midterm, final, viva is required")
    else if depth.None? || !IsDepth(depth.value) then Failure("depth: one of short, medium, detailed is required")
    else Success(InputSchema(content.value, examType.value, depth.value))
  }

  /** What `OutputSchema` accepts: a string title and three arrays of strings. */
  predicate ConformsToOutput(j: Json) {
    && StringMember(j, "title").Some?
    && StringListMember(j, "key_concepts").Some?
    && StringListMember(j, "important_points").Some?
    && StringListMember(j, "exam_tips").Some?
  }

  /** `OutputSchema.model_validate` on a parsed document. */
  function ValidateOutput(j: Json): (r: Result<NotesOutput, string>)
    ensures r.Success? <==> ConformsToOutput(j)
    ensures r.Success? ==> r.value.title == j.members["title"].s
    ensures r.Success? ==> r.value.keyConcepts == StringListMember(j, "key_concepts").value
    ensures r.Success? ==> r.value.importantPoints == StringListMember(j, "important_points").value
    ensures r.Success? ==> r.value.examTips == StringListMember(j, "exam_tips").value
  {
    match (StringMember(j, "title"), StringListMember(j, "key_concepts"),
           StringListMember(j, "important_points"), StringListMember(j, "exam_tips"))
    case (None, _, _, _) => Failure("title: a string is required")
    case (_, None, _, _) => Failure("key_concepts: a list of strings is required")
    case (_, _, None, _) => Failure("important_points: a list of strings is required")
    case (_, _, _, None) => Failure("exam_tips: a list of strings is required")
    case (Some(t), Some(kc), Some(ip), Some(tips)) => Success(NotesOutput(t, kc, ip, tips))
  }

  /** The output lists carry no length constraint: a document whose three lists are
      empty is valid notes. */
  lemma EmptyListsAreValidOutput(title: string)
    ensures ValidateOutput(JObject(map["title" := JString(title), "key_concepts" := JArray([]),
                                       "important_points" := JArray([]), "exam_tips" := JArray([])]))
            == Success(NotesOutput(title, [], [], []))
  {
  }

  /** The twenty characters are counted before any trimming: twenty spaces pass. */
  lemma UntrimmedLengthCounts()
    ensures ValidateInput(JObject(map["content" := JString("                    "),
                                      "exam_type" := JString("final"), "depth" := JString("short")])).Success?
  {
  }

  /** The selectors match exactly; a different spelling is rejected. */
  lemma SelectorsAreExact(content: string)
    requires |content| >= ContentMinLength
    ensures ValidateInput(JObject(map["content" := JString(content),
                                      "exam_type" := JString("Final"), "depth" := JString("short")])).Failure?
  {
  }
}
