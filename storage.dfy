/**
 * services/cloudStorage.ts: the single storage service, the mapping between
 * database rows and project records, the save payload, deletion scoped to
 * the owner, activity logging and the comment append. Every database call
 * is reduced to the reply it gives.
 */
module Storage {
  import opened Common

  /** A comment's own fields (author, text, ...) are carried but not interpreted. */
  datatype CommentDraft = CommentDraft(fields: map<string, string>)

  /** `UserComment`: a draft plus the id and time stamp the service adds. */
  datatype Comment = Comment(id: string, timestamp: int, draft: CommentDraft)

  /** `CloudProject` */
  datatype CloudProject = CloudProject(
    id: string, userId: string, title: string, content: string, style: string,
    lastModified: int, comments: seq<Comment>, aiAnalysis: Option<string>)

  /**
   * A row of the `projects` table. `last_modified` is absent or a number
   * (zero counts as absent, as `||` sees it); `created_at` is given as the
   * time it denotes, in milliseconds.
   */
  datatype ProjectRow = ProjectRow(
    id: string, user_id: string, title: string, content: string, style: string,
    last_modified: Option<int>, createdAtMs: int, comments: Option<seq<Comment>>,
    ai_analysis: Option<string>)

  /** One `activity_logs` insert: user, action type and description. */
  datatype Activity = Activity(userId: string, action: string, details: string)

  /** The record a row is read back as, in `getProjects`. */
  function MapRow(row: ProjectRow): (p: CloudProject)
    ensures p.id == row.id && p.userId == row.user_id && p.aiAnalysis == row.ai_analysis
    ensures p.title == row.title && p.content == row.content && p.style == row.style
    ensures row.last_modified.Some? && row.last_modified.value != 0 ==> p.lastModified == row.last_modified.value
    ensures row.last_modified.None? || row.last_modified.value == 0 ==> p.lastModified == row.createdAtMs
    ensures p.comments == (if row.comments.Some? then row.comments.value else [])
  {
    CloudProject(
      row.id, row.user_id, row.title, row.content, row.style,
      if row.last_modified.Some? && row.last_modified.value != 0 then row.last_modified.value else row.createdAtMs,
      if row.comments.Some? then row.comments.value else [],
      row.ai_analysis)
  }

  /** `getProjects`: a failed query gives no projects; otherwise one record per row, in row order. */
  function GetProjects(reply: Result<seq<ProjectRow>>): (ps: seq<CloudProject>)
    ensures reply.Err? ==> ps == []
    ensures reply.Ok? ==> |ps| == |reply.value| && forall k :: 0 <= k < |ps| ==> ps[k] == MapRow(reply.value[k])
  {
    match reply
    case Err(_) => []
    case Ok(rows) => seq(|rows|, k requires 0 <= k < |rows| => MapRow(rows[k]))
  }

  /** The object `saveProject` upserts; `id` is left out to let the database create one. */
  datatype Payload = Payload(
    id: Option<string>, user_id: string, title: string, content: string, style: string,
    ai_analysis: Option<string>, last_modified: int, comments: seq<Comment>)

  /** The payload of `saveProject` at time `now`, with its two id branches. */
  function SavePayload(p: CloudProject, now: int): (r: Payload)
    ensures r.id.Some? <==> p.id != ""
    ensures r.id.Some? ==> r.id.value == p.id
    ensures r.user_id == p.userId && r.last_modified == now && r.comments == p.comments
  {
    var id :=
      if p.id != "" && |p.id| == 36 then Some(p.id)
      else if p.id != "" then Some(p.id)
      else None;
    Payload(id, p.userId, p.title, p.content, p.style, p.aiAnalysis, now, p.comments)
  }

  /** The row the database holds after the upsert; `freshId` is the id it assigns when none is sent. */
  function StoredRow(payload: Payload, freshId: string, createdAtMs: int): ProjectRow {
    ProjectRow(
      if payload.id.Some? then payload.id.value else freshId,
      payload.user_id, payload.title, payload.content, payload.style,
      Some(payload.last_modified), createdAtMs, Some(payload.comments), payload.ai_analysis)
  }

  /**
   * Saving then loading round-trips: a project with an id, saved at a
   * non-zero time, reads back as itself stamped with that time.
   */
  lemma SaveThenLoad(p: CloudProject, now: int, freshId: string, createdAtMs: int)
    requires p.id != "" && now != 0
    ensures MapRow(StoredRow(SavePayload(p, now), freshId, createdAtMs)) == p.(lastModified := now)
  {
  }

  /** The activity logged when a project is saved. */
  function SavedActivity(p: CloudProject): Activity {
    Activity(p.userId, "save_project", "پروژه \"" + p.title + "\" ذخیره شد.")
  }

  /** `saveProject`: false on an upsert error, with nothing logged; true only after logging. */
  function SaveProject(p: CloudProject, upsert: Outcome): (r: (bool, seq<Activity>))
    ensures r.0 <==> upsert.Pass?
    ensures r.1 == (if r.0 then [SavedActivity(p)] else [])
  {
    if upsert.Fail? then (false, []) else (true, [SavedActivity(p)])
  }

  /** The rows left after `delete().eq('id', id).eq('user_id', userId)`. */
  function RowsAfterDelete(rows: seq<ProjectRow>, id: string, userId: string): (r: seq<ProjectRow>)
    ensures forall row :: row in r <==> row in rows && !(row.id == id && row.user_id == userId)
    ensures IsSubsequence(r, rows)
    ensures forall row :: multiset(r)[row] == if row.id == id && row.user_id == userId then 0 else multiset(rows)[row]
  {
    var keep := (row: ProjectRow) => !(row.id == id && row.user_id == userId);
    FilterMembers(rows, keep);
    FilterIsSubsequence(rows, keep);
    FilterCounts(rows, keep);
    Filter(rows, keep)
  }

  /** Deleting never touches another user's project. */
  lemma DeleteKeepsOtherUsers(rows: seq<ProjectRow>, id: string, userId: string, row: ProjectRow)
    requires row in rows && row.user_id != userId
    ensures row in RowsAfterDelete(rows, id, userId)
  {
  }

  /** `deleteProject`: the owner's matching rows go when the database reports no error. */
  function DeleteProject(rows: seq<ProjectRow>, id: string, userId: string, reply: Outcome): (r: (bool, seq<ProjectRow>))
    ensures r.0 <==> reply.Pass?
    ensures reply.Fail? ==> r.1 == rows
    ensures reply.Pass? ==> r.1 == RowsAfterDelete(rows, id, userId)
  {
    if reply.Fail? then (false, rows) else (true, RowsAfterDelete(rows, id, userId))
  }

  /** The reply to reading a project's comments: an error, no such project, or its (possibly missing) list. */
  datatype CommentFetch = FetchFailed | NoProject | Found(comments: Option<seq<Comment>>)

  /** What `addComment` did: the comment it returns and the list it wrote, if any. */
  datatype CommentAppend = CommentAppend(result: Option<Comment>, written: Option<seq<Comment>>)

  /**
   * `addComment`: a failed or empty fetch returns null and writes nothing;
   * otherwise the new comment (with `newId` and `now`) is appended to the
   * existing list, the list is written, and the comment is returned unless
   * the write fails.
   */
  function AddComment(draft: CommentDraft, fetch: CommentFetch, update: Outcome, newId: string, now: int): (r: CommentAppend)
    ensures !fetch.Found? ==> r == CommentAppend(None, None)
    ensures fetch.Found? ==> r.written.Some?
    ensures r.written.Some? ==>
      var existing := if fetch.comments.Some? then fetch.comments.value else [];
      |r.written.value| == |existing| + 1 && r.written.value[..|existing|] == existing
      && r.written.value[|existing|] == Comment(newId, now, draft)
    ensures r.result.Some? <==> fetch.Found? && update.Pass?
    ensures r.result.Some? ==> r.result.value == Comment(newId, now, draft)
  {
    match fetch
    case FetchFailed => CommentAppend(None, None)
    case NoProject => CommentAppend(None, None)
    case Found(comments) =>
      var existing := if comments.Some? then comments.value else [];
      var comment := Comment(newId, now, draft);
      var updated := existing + [comment];
      assert updated[..|existing|] == existing;
      CommentAppend(if update.Pass? then Some(comment) else None, Some(updated))
  }

  /** `CloudStorageService`; it holds no state of its own. */
  class CloudStorageService {
    constructor ()
    {
    }
  }

  /** The class-level `instance` slot behind `getInstance`. */
  class ServiceRegistry {
    var instance: CloudStorageService?

    constructor ()
      ensures instance == null
    {
      instance := null;
    }

    /** `getInstance`: create the service on the first call, return the same one ever after. */
    method GetInstance() returns (s: CloudStorageService)
      modifies this
      ensures instance == s
      ensures old(instance) != null ==> s == old(instance)
      ensures old(instance) == null ==> fresh(s)
    {
      if instance == null {
        instance := new CloudStorageService();
      }
      s := instance;
    }
  }

  /** Two lookups, however the registry started, yield one and the same service. */
  method GetInstanceTwice(registry: ServiceRegistry) returns (first: CloudStorageService, second: CloudStorageService)
    modifies registry
    ensures first == second
  {
    first := registry.GetInstance();
    second := registry.GetInstance();
  }
}
