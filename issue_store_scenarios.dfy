/**
 * Client-side consequences of the store's contracts: what a caller of the store can rely on
 * from the method specifications alone, each shown on a store created for the occasion.
 */
module IssueStoreScenarios {
  import opened Wrappers
  import opened IssueStore

  /** Two `update()` calls in a row coalesce: the same handle, and only the first starts a task. */
  method CoalescedUpdates(repo: Repository) returns (first: Callback, second: Callback, launched: RefreshTask?, relaunched: RefreshTask?)
    ensures first == second && !first.done
    ensures launched != null && launched.future == first
    ensures relaunched == null
  {
    var store := new Store(repo);
    first, launched := store.Update();
    second, relaunched := store.Update();
  }

  /** Once the refresh has completed, the next `update()` starts a new refresh with a new handle. */
  method UpdateAfterCompletion(repo: Repository) returns (first: Callback, second: Callback, relaunched: RefreshTask?)
    ensures first != second && first.done && !second.done
    ensures relaunched != null && relaunched.future == second
  {
    var store := new Store(repo);
    var task;
    first, task := store.Update();
    var _ := task.OnSuccess();
    second, relaunched := store.Update();
  }

  /**
   * A failed fetch keeps the previous snapshot, and the host still reports success, so the
   * listeners run although nothing changed.
   */
  method FailedRefreshKeepsSnapshot(repo: Repository, fetched: seq<Issue>)
    returns (snapshot: seq<Issue>, invoked: seq<Listener>, updating: bool)
    ensures snapshot == fetched
    ensures invoked == [SAVE_LISTENER]
    ensures !updating
  {
    var store := new Store(repo);
    var _, task := store.Update();
    task.Run(q => Some(fetched));
    var _ := task.OnSuccess();
    var _, retry := store.Update();
    retry.Run(q => None);
    invoked := retry.OnSuccess();
    snapshot := store.GetAllIssues();
    updating := store.IsUpdating();
  }

  /** Cancellation after `run` does not undo the replacement and invokes no listener. */
  method CancelAfterRun(repo: Repository, fetched: seq<Issue>) returns (snapshot: seq<Issue>, updating: bool)
    ensures snapshot == fetched
    ensures !updating
  {
    var store := new Store(repo);
    var _, task := store.Update();
    task.Run(q => Some(fetched));
    task.OnCancel();
    snapshot := store.GetAllIssues();
    updating := store.IsUpdating();
  }

  /** The fetch uses the search query in force when `run` executes, not when `update()` was called. */
  method QueryReadWhenRunExecutes(repo: Repository, query: string, fetch: string -> Option<seq<Issue>>)
    returns (snapshot: seq<Issue>)
    ensures fetch(query).Some? ==> snapshot == fetch(query).value
    ensures fetch(query).None? ==> snapshot == []
  {
    var store := new Store(repo);
    var _, task := store.Update();
    store.SetSearchQuery(query);
    task.Run(fetch);
    snapshot := store.GetAllIssues();
  }

  /**
   * A listener added while a refresh is in flight is invoked when it succeeds, after the
   * initial one; adding it twice registers it once.
   */
  method ListenerJoinsInFlightRefresh(repo: Repository, l: Listener) returns (invoked: seq<Listener>)
    requires l != SAVE_LISTENER
    ensures invoked == [SAVE_LISTENER, l]
  {
    var store := new Store(repo);
    var _, task := store.Update();
    store.AddListener(l);
    store.AddListener(l);
    invoked := task.OnSuccess();
  }

  /** The registry returns the same store for the same repository and distinct stores otherwise. */
  method RegistryReuse(a: Repository, b: Repository) returns (first: Store, again: Store, other: Store)
    requires a != b
    ensures first == again && first != other
    ensures first.repo == a && other.repo == b
  {
    var registry := new IssueStoreComponent();
    first := registry.Get(a);
    other := registry.Get(b);
    again := registry.Get(a);
  }
}
