/**
 * SupabaseService: the process-wide store client, created lazily on first use
 * from two configuration values and then shared for the process lifetime.
 */
module Supabase {
  import opened Wrappers
  import opened Store

  /** The process environment: variable name to value; an absent name is undefined. */
  type Env = map<string, string>

  const UrlVariable := "SUPABASE_URL"
  const KeyVariable := "SUPABASE_KEY"
  const MissingConfiguration := "Missing Supabase configuration. Please check your .env file."

  /** The variable is set to a truthy value: defined and not the empty string. */
  predicate Defined(env: Env, variable: string) {
    variable in env && env[variable] != ""
  }

  /** Both the store URL and the access key are available. */
  predicate Configured(env: Env) {
    Defined(env, UrlVariable) && Defined(env, KeyVariable)
  }

  /** The object `createClient(url, key)` returns: a handle on the store the URL names. */
  class SupabaseClient {
    const url: string
    const key: string
    const comments: CommentsTable

    constructor (url: string, key: string, comments: CommentsTable)
      ensures this.url == url && this.key == key && this.comments == comments
    {
      this.url, this.key, this.comments := url, key, comments;
    }
  }

  /**
   * The static state of SupabaseService. `instance` is unset (null) until the
   * first successful GetClient and never reset; `creations` counts the clients
   * ever created.
   */
  class SupabaseService {
    var instance: SupabaseClient?
    ghost var creations: nat

    ghost predicate Valid()
      reads this
    {
      creations == if instance == null then 0 else 1
    }

    constructor ()
      ensures Valid() && instance == null
    {
      instance := null;
      creations := 0;
    }

    /**
     * getClient(): the existing client if there is one, without looking at the
     * configuration; otherwise a new client for `database` when both variables
     * are set, and the configuration error, with nothing stored, when either
     * is missing or empty.
     */
    method GetClient(env: Env, database: CommentsTable) returns (r: Result<SupabaseClient, string>)
      requires Valid()
      modifies this
      ensures Valid() && creations <= 1
      ensures old(instance) != null ==> r == Ok(old(instance)) && instance == old(instance)
      ensures old(instance) == null && !Configured(env) ==> r == Err(MissingConfiguration) && instance == null
      ensures old(instance) == null && Configured(env) ==>
        r.Ok? && fresh(r.value) && instance == r.value &&
        r.value.url == env[UrlVariable] && r.value.key == env[KeyVariable] && r.value.comments == database
      ensures creations == old(creations) + (if old(instance) == null && r.Ok? then 1 else 0)
    {
      if instance == null {
        if !Defined(env, UrlVariable) || !Defined(env, KeyVariable) {
          return Err(MissingConfiguration);
        }
        instance := new SupabaseClient(env[UrlVariable], env[KeyVariable], database);
        creations := creations + 1;
      }
      r := Ok(instance);
    }
  }

  /**
   * Two calls in a row: once a call succeeds, every later call returns that
   * same object, whatever the configuration then says, and no second client is
   * created.
   */
  method GetClientTwice(service: SupabaseService, env1: Env, env2: Env, database: CommentsTable)
    returns (first: Result<SupabaseClient, string>, second: Result<SupabaseClient, string>)
    requires service.Valid()
    modifies service
    ensures service.Valid() && service.creations <= 1
    ensures first.Ok? ==> second == first
    ensures first.Err? ==> second == (if Configured(env2) then Ok(service.instance) else first)
  {
    first := service.GetClient(env1, database);
    second := service.GetClient(env2, database);
  }
}
