/**
 * The per-repository issue cache of the YouTrack plugin. A registry hands out one Store per
 * repository; a Store keeps the last fetched issue list and refreshes it in the background,
 * at most one refresh at a time. The host's background task is modelled by RefreshTask, whose
 * three callbacks (`run`, `onCancel`, `onSuccess`) are methods the host calls in some order.
 */
module IssueStore {
  import opened Wrappers

  /** A configured issue tracker, compared by value. */
  datatype Repository = Repository(url: string, username: string)

  /** An issue snapshot as the server returned it. */
  datatype Issue = Issue(id: string, summary: string)

  /** A registered callback, identified by the object it is. */
  datatype Listener = Listener(id: nat)

  /** The no-op listener every store is created with (a placeholder for saving to disk). */
  const SAVE_LISTENER := Listener(0)

  /** `issues[index]` throws when the index is outside the list. */
  datatype StoreError = IndexOutOfBounds(index: int, size: nat)

  /** A listener list with set semantics: no listener twice. */
  ghost predicate Distinct(ls: seq<Listener>)
  {
    forall i, j :: 0 <= i < j < |ls| ==> ls[i] != ls[j]
  }

  /** `add` on an insertion-ordered set: a new listener goes last, a known one changes nothing. */
  function WithListener(ls: seq<Listener>, l: Listener): (r: seq<Listener>)
    ensures l in r
    ensures forall x :: x in r <==> x in ls || x == l
    ensures ls <= r && |r| <= |ls| + 1
    ensures Distinct(ls) ==> Distinct(r)
  {
    if l in ls then ls else ls + [l]
  }

  /** Adding the same listener twice leaves the set as after one add. */
  lemma WithListenerIdempotent(ls: seq<Listener>, l: Listener)
    ensures WithListener(WithListener(ls, l), l) == WithListener(ls, l)
  {
  }

  /** The completion handle (`ActionCallback`): a one-way done flag shared by everyone holding it. */
  class Callback {
    var done: bool

    /** `ActionCallback.Done()`: a handle that is done from the start. */
    constructor Done()
      ensures done
    {
      done := true;
    }

    /** `ActionCallback()`: a handle not done yet. */
    constructor Pending()
      ensures !done
    {
      done := false;
    }

    method SetDone()
      modifies this
      ensures done
    {
      done := true;
    }
  }

  class Store {
    const repo: Repository
    var issues: seq<Issue>
    var current: Callback
    var listeners: seq<Listener>
    var searchQuery: string

    ghost predicate Valid()
      reads this`listeners
    {
      Distinct(listeners)
    }

    /** Refreshing iff the current handle is not done. */
    predicate IsUpdating()
      reads this, current
    {
      !current.done
    }

    constructor (repo: Repository)
      ensures Valid() && this.repo == repo
      ensures issues == [] && listeners == [SAVE_LISTENER] && searchQuery == ""
      ensures fresh(current) && !IsUpdating()
    {
      this.repo := repo;
      issues := [];
      current := new Callback.Done();
      listeners := [SAVE_LISTENER];
      searchQuery := "";
    }

    /**
     * Single flight: while refreshing, hands back the outstanding handle and starts nothing;
     * when idle, installs a fresh pending handle and hands the host a task that completes it.
     */
    method Update() returns (handle: Callback, task: RefreshTask?)
      requires Valid()
      modifies this
      ensures Valid()
      ensures issues == old(issues) && listeners == old(listeners) && searchQuery == old(searchQuery)
      ensures handle == current && IsUpdating()
      ensures old(IsUpdating()) ==> handle == old(current) && task == null
      ensures !old(IsUpdating()) ==>
                fresh(handle) && task != null && fresh(task) && task.store == this && task.future == handle
    {
      if IsUpdating() {
        return current, null;
      }
      handle, task := Refresh();
      current := handle;
    }

    /** Creates the pending handle and the background task that will complete it. */
    method Refresh() returns (future: Callback, task: RefreshTask)
      ensures fresh(future) && !future.done
      ensures fresh(task) && task.store == this && task.future == future
    {
      future := new Callback.Pending();
      task := new RefreshTask(this, future);
    }

    /** `getIssue(index)`: the issue at that position of the snapshot, or the out-of-range error. */
    function GetIssue(index: int): (r: Result<Issue, StoreError>)
      reads this
      ensures r.Success? <==> 0 <= index < |issues|
      ensures r.Success? ==> r.value == issues[index]
      ensures r.Failure? ==> r.error == IndexOutOfBounds(index, |issues|)
    {
      if 0 <= index < |issues| then Success(issues[index])
      else Failure(IndexOutOfBounds(index, |issues|))
    }

    /** `getAllIssues()`: the snapshot itself, element for element what GetIssue sees. */
    function GetAllIssues(): (r: seq<Issue>)
      reads this
      ensures |r| == |issues|
      ensures forall i :: 0 <= i < |r| ==> GetIssue(i) == Success(r[i])
    {
      issues
    }

    /** `addListener`: set insertion, so a listener already present is not added again. */
    method AddListener(l: Listener)
      requires Valid()
      modifies this`listeners
      ensures Valid()
      ensures listeners == WithListener(old(listeners), l)
    {
      if l !in listeners {
        listeners := listeners + [l];
      }
    }

    /** Assigning `searchQuery` changes nothing else and starts no refresh. */
    method SetSearchQuery(q: string)
      modifies this`searchQuery
      ensures searchQuery == q
    {
      searchQuery := q;
    }
  }

  /** The background task a refresh queues: it captures the store and the refresh's own handle. */
  class RefreshTask {
    const store: Store
    const future: Callback

    constructor (store: Store, future: Callback)
      ensures this.store == store && this.future == future
    {
      this.store := store;
      this.future := future;
    }

    /**
     * `run`: fetches the issues for the store's search query as it is now. A result replaces
     * the snapshot wholesale; a failure is swallowed and leaves the snapshot as it was.
     */
    method Run(fetch: string -> Option<seq<Issue>>)
      modifies store`issues
      ensures store.issues == match fetch(store.searchQuery)
                              case Some(fetched) => fetched
                              case None => old(store.issues)
    {
      match fetch(store.searchQuery)
      case Some(fetched) =>
        store.issues := fetched;
      case None =>
    }

    /** `onCancel`: marks the handle done and notifies nobody; the snapshot is left as `run` made it. */
    method OnCancel()
      modifies future
      ensures future.done
    {
      future.SetDone();
    }

    /**
     * `onSuccess`: marks the handle done, then invokes every listener registered at this moment,
     * once each, in registration order; `invoked` is that sequence of invocations. The host calls
     * it after `run` returns, whether or not the fetch failed.
     */
    method OnSuccess() returns (invoked: seq<Listener>)
      requires store.Valid()
      modifies future
      ensures future.done
      ensures invoked == store.listeners
      ensures Distinct(invoked)
    {
      future.SetDone();
      invoked := [];
      for i := 0 to |store.listeners|
        invariant invoked == store.listeners[..i]
      {
        invoked := invoked + [store.listeners[i]];
      }
    }
  }

  /** The project-wide registry: one store per repository, created on first request. */
  class IssueStoreComponent {
    var stores: map<Repository, Store>

    ghost predicate Valid()
      reads this, stores.Values
    {
      forall r :: r in stores ==> stores[r].repo == r && stores[r].Valid()
    }

    constructor ()
      ensures Valid() && stores == map[]
    {
      stores := map[];
    }

    /** Get-or-create: the existing store for `repo`, or exactly one new store added under `repo`. */
    method Get(repo: Repository) returns (s: Store)
      requires Valid()
      modifies this
      ensures Valid()
      ensures repo in stores && stores[repo] == s && s.repo == repo
      ensures forall r :: r in stores && r != repo ==> stores[r] != s
      ensures repo in old(stores) ==> stores == old(stores) && s == old(stores)[repo]
      ensures repo !in old(stores) ==>
                && stores == old(stores)[repo := s]
                && fresh(s) && s.issues == [] && s.listeners == [SAVE_LISTENER] && s.searchQuery == ""
                && !s.IsUpdating()
    {
      if repo in stores {
        s := stores[repo];
      } else {
        s := new Store(repo);
        stores := stores[repo := s];
      }
    }
  }
}
