/**
 * CommentsService: creating and listing guest-book entries through the store
 * client, with every failure rewrapped as an InternalServerError.
 */
module Comments {
  import opened Wrappers
  import opened Strings
  import opened Store
  import opened Supabase
  import Validation

  /** What the service can throw: Nest's InternalServerErrorException, or anything else. */
  datatype Exception = InternalServerError(message: string) | ForeignError(message: string)

  const CreatePrefix := "Failed to create comment: "
  const CreateFallback := "An unexpected error occurred while creating the comment"
  const FetchPrefix := "Failed to fetch comments: "
  const FetchFallback := "An unexpected error occurred while fetching comments"

  /** The two error shapes a method may fail with: the store's message behind `prefix`, or the generic `fallback`. */
  predicate IsMappedFailure(e: Exception, prefix: string, fallback: string) {
    e.InternalServerError? && (StartsWith(e.message, prefix) || e.message == fallback)
  }

  /** The catch block both methods share: an InternalServerError is rethrown as it is, anything else is replaced. */
  function Rethrow(e: Exception, fallback: string): (r: Exception)
    ensures r.InternalServerError?
    ensures e.InternalServerError? ==> r == e
    ensures !e.InternalServerError? ==> r.message == fallback
  {
    if e.InternalServerError? then e else InternalServerError(fallback)
  }

  /** The try block of create: the returned row, or what it throws. */
  function TryCreate(reply: InsertReply): (r: Result<Comment, Exception>)
    ensures r.Ok? <==> reply.InsertedRow?
    ensures r.Ok? ==> r.value == reply.row
    ensures r.Err? ==> (r.error.InternalServerError? <==> reply.InsertFailed?)
    ensures reply.InsertFailed? ==> StartsWith(r.error.message, CreatePrefix)
  {
    PrefixStartsWith(CreatePrefix, if reply.InsertFailed? then reply.error.message else "");
    match reply
    case InsertedRow(row) => Ok(row)
    case InsertFailed(error) => Err(InternalServerError(CreatePrefix + error.message))
    case InsertThrew(message) => Err(ForeignError(message))
  }

  /** create after its catch block: the store's row, or one of the two create failures. */
  function CreateOutcome(reply: InsertReply): (r: Result<Comment, Exception>)
    ensures r.Ok? <==> reply.InsertedRow?
    ensures r.Ok? ==> r.value == reply.row
    ensures reply.InsertFailed? ==> r == Err(InternalServerError(CreatePrefix + reply.error.message))
    ensures reply.InsertThrew? ==> r == Err(InternalServerError(CreateFallback))
  {
    match TryCreate(reply)
    case Ok(row) => Ok(row)
    case Err(e) => Err(Rethrow(e, CreateFallback))
  }

  /** The try block of findAll: the data or `[]` when there is none, or what it throws. */
  function TryFindAll(reply: SelectReply): (r: Result<seq<Comment>, Exception>)
    ensures r.Ok? <==> reply.SelectedRows?
    ensures r.Ok? ==> r.value == (if reply.data.Some? then reply.data.value else [])
    ensures r.Err? ==> (r.error.InternalServerError? <==> reply.SelectFailed?)
    ensures reply.SelectFailed? ==> StartsWith(r.error.message, FetchPrefix)
  {
    PrefixStartsWith(FetchPrefix, if reply.SelectFailed? then reply.error.message else "");
    match reply
    case SelectedRows(data) => Ok(if data.Some? then data.value else [])
    case SelectFailed(error) => Err(InternalServerError(FetchPrefix + error.message))
    case SelectThrew(message) => Err(ForeignError(message))
  }

  /** findAll after its catch block: the rows (never null), or one of the two fetch failures. */
  function FindAllOutcome(reply: SelectReply): (r: Result<seq<Comment>, Exception>)
    ensures r.Ok? <==> reply.SelectedRows?
    ensures reply == SelectedRows(None) ==> r == Ok([])
    ensures reply.SelectedRows? && reply.data.Some? ==> r == Ok(reply.data.value)
    ensures reply.SelectFailed? ==> r == Err(InternalServerError(FetchPrefix + reply.error.message))
    ensures reply.SelectThrew? ==> r == Err(InternalServerError(FetchFallback))
  {
    match TryFindAll(reply)
    case Ok(rows) => Ok(rows)
    case Err(e) => Err(Rethrow(e, FetchFallback))
  }

  lemma PrefixStartsWith(prefix: string, rest: string)
    ensures StartsWith(prefix + rest, prefix)
  {
    assert (prefix + rest)[..|prefix|] == prefix;
  }

  /** Every failure of create has one of its two error shapes. */
  lemma CreateFailuresAreMapped(reply: InsertReply)
    ensures CreateOutcome(reply).Err? ==> IsMappedFailure(CreateOutcome(reply).error, CreatePrefix, CreateFallback)
  {
    if reply.InsertFailed? {
      PrefixStartsWith(CreatePrefix, reply.error.message);
    }
  }

  /** Every failure of findAll has one of its two error shapes. */
  lemma FindAllFailuresAreMapped(reply: SelectReply)
    ensures FindAllOutcome(reply).Err? ==> IsMappedFailure(FindAllOutcome(reply).error, FetchPrefix, FetchFallback)
  {
    if reply.SelectFailed? {
      PrefixStartsWith(FetchPrefix, reply.error.message);
    }
  }

  class CommentsService {
    /** The client obtained when the service is constructed. */
    const supabase: SupabaseClient

    constructor (client: SupabaseClient)
      ensures supabase == client
    {
      supabase := client;
    }

    /**
     * create(dto): inserts one row built from the DTO's two fields only (the
     * store assigns `id` and `created_at`) and returns the row the store gave
     * back; a store failure writes nothing and is rewrapped.
     */
    method Create(dto: Validation.CreateCommentDto, elapsed: nat, fault: InsertFault) returns (r: Result<Comment, Exception>)
      requires supabase.comments.Valid()
      modifies supabase.comments
      ensures supabase.comments.Valid()
      ensures r.Ok? <==> fault.InsertOk?
      ensures r.Ok? ==>
        supabase.comments.rows == old(supabase.comments.rows) + [r.value] &&
        r.value.name == dto.name && r.value.message == dto.message &&
        (forall i :: 0 <= i < |old(supabase.comments.rows)| ==> old(supabase.comments.rows)[i].id != r.value.id) &&
        (forall i :: 0 <= i < |old(supabase.comments.rows)| ==> old(supabase.comments.rows)[i].createdAt <= r.value.createdAt)
      ensures r.Err? ==> supabase.comments.rows == old(supabase.comments.rows)
      ensures r.Err? ==> IsMappedFailure(r.error, CreatePrefix, CreateFallback)
      ensures fault.InsertRejected? ==> r == Err(InternalServerError(CreatePrefix + fault.message))
      ensures fault.InsertUnreachable? ==> r == Err(InternalServerError(CreateFallback))
    {
      var reply := supabase.comments.Insert(dto.name, dto.message, elapsed, fault);
      r := CreateOutcome(reply);
      CreateFailuresAreMapped(reply);
    }

    /**
     * findAll(): every row, newest first, or `[]` when the store yields no
     * data; a store failure is rewrapped. Reads the table and never writes it.
     */
    method FindAll(fault: SelectFault) returns (r: Result<seq<Comment>, Exception>)
      requires supabase.comments.Valid()
      ensures r.Ok? <==> fault.SelectOk? || fault.SelectNoData?
      ensures fault.SelectOk? ==>
        |r.value| == |supabase.comments.rows| &&
        multiset(r.value) == multiset(supabase.comments.rows) &&
        NewestFirstOrdered(r.value) &&
        (supabase.comments.rows != [] ==> r.value[0] == supabase.comments.rows[|supabase.comments.rows| - 1])
      ensures fault.SelectNoData? ==> r == Ok([])
      ensures r.Err? ==> IsMappedFailure(r.error, FetchPrefix, FetchFallback)
      ensures fault.SelectRejected? ==> r == Err(InternalServerError(FetchPrefix + fault.message))
      ensures fault.SelectUnreachable? ==> r == Err(InternalServerError(FetchFallback))
    {
      var reply := supabase.comments.SelectNewestFirst(fault);
      r := FindAllOutcome(reply);
      FindAllFailuresAreMapped(reply);
      NewestFirstPermutes(supabase.comments.rows);
      NewestFirstSorted(supabase.comments.rows);
    }
  }

  /**
   * Constructing the service obtains the client at once, so a missing
   * configuration fails construction rather than a later request.
   */
  method NewCommentsService(registry: SupabaseService, env: Env, database: CommentsTable)
    returns (r: Result<CommentsService, string>)
    requires registry.Valid()
    modifies registry
    ensures registry.Valid()
    ensures r.Err? <==> old(registry.instance) == null && !Configured(env)
    ensures r.Err? ==> r.error == MissingConfiguration
    ensures r.Ok? ==> r.value.supabase == registry.instance
  {
    var client := registry.GetClient(env, database);
    match client {
      case Ok(c) =>
        var service := new CommentsService(c);
        r := Ok(service);
      case Err(e) =>
        r := Err(e);
    }
  }
}
