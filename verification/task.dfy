/**
 The task envelope: the `Task` record delivered on a queue, its closed
 `TaskType` vocabulary, and the mapping between a decoded JSON document
 and a `Task`. Lexing the payload text into a JSON document is library
 behaviour and stays abstract (see `WorkerLoop.Parser`); what is modelled
 here is how the fields of that document become a `Task`.
 */
module TaskEnvelope {
  import opened Results
  import opened Json

  datatype TaskType = Docker | Shell

  /** `target_host` is carried but never consulted; `details` is validated
      lazily by the executor, not here. */
  datatype Task = Task(id: string, targetHost: string, taskType: TaskType, details: JsonValue)

  const IdField := "id"
  const TargetHostField := "target_host"
  const TaskTypeField := "task_type"
  const DetailsField := "details"

  /** The wire spelling of a variant: the variant name in upper case. */
  function TaskTypeName(tt: TaskType): string {
    match tt
    case Docker => "DOCKER"
    case Shell => "SHELL"
  }

  /** Case-sensitive: only the exact upper-case names are accepted, and
      anything else is a failure rather than a default. */
  function DecodeTaskType(name: string): (r: Option<TaskType>)
    ensures r.Some? <==> name == "DOCKER" || name == "SHELL"
    ensures r.Some? ==> TaskTypeName(r.value) == name
  {
    if name == "DOCKER" then Some(Docker)
    else if name == "SHELL" then Some(Shell)
    else None
  }

  lemma TaskTypeNameDecodes(tt: TaskType, name: string)
    ensures DecodeTaskType(name) == Some(tt) <==> name == TaskTypeName(tt)
  {
  }

  /** The variant names differ from their lower- and mixed-case spellings,
      and those spellings are rejected. */
  lemma OtherSpellingsRejected()
    ensures DecodeTaskType("shell") == None && DecodeTaskType("Shell") == None
    ensures DecodeTaskType("docker") == None && DecodeTaskType("Docker") == None
    ensures DecodeTaskType("") == None
  {
  }

  /** A member that must be present and hold a JSON string. */
  function StringField(fields: map<string, JsonValue>, name: string): Option<string> {
    if name in fields && fields[name].Str? then Some(fields[name].s) else None
  }

  /** What a document needs for `Task` to deserialize from it: an object
      with string `id` and `target_host`, a `task_type` naming a variant,
      and a `details` member of any shape. Other members are ignored. */
  predicate IsEnvelope(doc: JsonValue) {
    && doc.Object?
    && IdField in doc.fields && doc.fields[IdField].Str?
    && TargetHostField in doc.fields && doc.fields[TargetHostField].Str?
    && TaskTypeField in doc.fields && doc.fields[TaskTypeField].Str?
    && DecodeTaskType(doc.fields[TaskTypeField].s).Some?
    && DetailsField in doc.fields
  }

  function DecodeTask(doc: JsonValue): (r: Option<Task>)
    ensures r.Some? <==> IsEnvelope(doc)
    ensures r.Some? ==>
      && r.value.id == doc.fields[IdField].s
      && r.value.targetHost == doc.fields[TargetHostField].s
      && TaskTypeName(r.value.taskType) == doc.fields[TaskTypeField].s
      && r.value.details == doc.fields[DetailsField]
  {
    if !doc.Object? then None
    else
      match (StringField(doc.fields, IdField), StringField(doc.fields, TargetHostField),
             StringField(doc.fields, TaskTypeField))
      case (Some(id), Some(host), Some(typeName)) =>
        (match DecodeTaskType(typeName)
         case Some(tt) =>
           if DetailsField in doc.fields then Some(Task(id, host, tt, doc.fields[DetailsField]))
           else None
         case None => None)
      case _ => None
  }

  /** The derived serializer's form of a task. */
  function EncodeTask(t: Task): JsonValue {
    Object(map[IdField := Str(t.id), TargetHostField := Str(t.targetHost),
               TaskTypeField := Str(TaskTypeName(t.taskType)), DetailsField := t.details])
  }

  lemma DecodeEncodeTask(t: Task)
    ensures IsEnvelope(EncodeTask(t))
    ensures DecodeTask(EncodeTask(t)) == Some(t)
  {
  }

  /** Members outside the four field names never change the decoding. */
  lemma UnknownFieldsIgnored(fields: map<string, JsonValue>, key: string, extra: JsonValue)
    requires key !in {IdField, TargetHostField, TaskTypeField, DetailsField}
    ensures DecodeTask(Object(fields[key := extra])) == DecodeTask(Object(fields))
  {
  }
}
