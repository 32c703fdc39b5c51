/** The worker list: search over name and phone, adding and deleting
    workers, and how each worker's balance is shown. */
module WorkersPage {
  import opened Common

  datatype Worker = Worker(
    id: string,
    name: string,
    phone: string,
    initialDebt: Option<real>,
    createdAt: string)

  /** String.prototype.trim leaves nothing: the query is only spaces, tabs
      and line breaks. */
  predicate Blank(q: string) {
    forall i :: 0 <= i < |q| ==> q[i] in {' ', '\t', '\n', '\r', '\U{0B}', '\U{0C}'}
  }

  /** The lower-cased name or phone contains the lower-cased query. */
  predicate Matches(w: Worker, q: string) {
    Contains(Lower(w.name), Lower(q)) || Contains(Lower(w.phone), Lower(q))
  }

  function MatchesQuery(q: string): Worker -> bool {
    (w: Worker) => Matches(w, q)
  }

  /** The search box: a blank query lists everyone; otherwise the workers
      that match the query as typed (untrimmed), in list order. */
  function Search(workers: seq<Worker>, q: string): (r: seq<Worker>)
    ensures Blank(q) ==> r == workers
    ensures !Blank(q) ==> Selects(r, workers, MatchesQuery(q))
  {
    if Blank(q) then workers
    else
      FilterSelects(MatchesQuery(q), workers);
      Filter(MatchesQuery(q), workers)
  }

  /** Upper and lower case do not matter: a worker is found by its own name
      typed in any mix of cases, in any list that holds it. */
  lemma FindsOwnName(w: Worker, workers: seq<Worker>, q: string)
    requires w in workers && Lower(q) == Lower(w.name)
    ensures w in Search(workers, q)
  {
    if !Blank(q) {
      ContainsAt(Lower(w.name), Lower(q), 0);
      var r := Search(workers, q);
      assert MatchesQuery(q)(w);
      assert multiset(r)[w] == multiset(workers)[w] > 0;
    }
  }

  /** Searching a list with one more worker in front: that worker is listed
      first exactly when the query is blank or it matches. */
  lemma SearchPrepend(w: Worker, workers: seq<Worker>, q: string)
    ensures Search([w] + workers, q) ==
      (if Blank(q) || Matches(w, q) then [w] else []) + Search(workers, q)
  {
    if !Blank(q) {
      FilterCons(MatchesQuery(q), w, workers);
    }
  }

  function IdIsNot(id: string): Worker -> bool {
    (w: Worker) => w.id != id
  }

  function RemoveWorker(workers: seq<Worker>, id: string): (r: seq<Worker>)
    ensures Selects(r, workers, IdIsNot(id))
  {
    FilterSelects(IdIsNot(id), workers);
    Filter(IdIsNot(id), workers)
  }

  /** Removing a worker from the searched list gives the search of the list
      with the worker removed. */
  lemma SearchRemoveCommute(workers: seq<Worker>, q: string, id: string)
    ensures RemoveWorker(Search(workers, q), id) == Search(RemoveWorker(workers, id), q)
  {
    if !Blank(q) {
      FilterCommutes(IdIsNot(id), MatchesQuery(q), workers);
    }
  }

  /** The amount shown on a worker's card: the fetched balance, 0 when there
      is none. */
  function ShownBalance(balances: map<string, real>, id: string): (amount: real)
    ensures id in balances ==> amount == balances[id]
    ensures id !in balances ==> amount == 0.0
  {
    if id in balances then balances[id] else 0.0
  }

  /** The card shows the balance in red when the fetched balance is below
      zero; a missing balance is not. */
  predicate ShownRed(balances: map<string, real>, id: string): (red: bool)
    ensures id !in balances ==> !red
    ensures red ==> balances[id] < 0.0
  {
    id in balances && balances[id] < 0.0
  }

  /** Red is shown exactly for a negative displayed amount. */
  lemma RedIffNegative(balances: map<string, real>, id: string)
    ensures ShownRed(balances, id) <==> ShownBalance(balances, id) < 0.0
  {
  }

  /** The page state: the fetched list, the list shown, the balances, the
      search box, the add form and the delete confirmation. */
  class WorkersPage {
    var workers: seq<Worker>
    var filteredWorkers: seq<Worker>
    var balances: map<string, real>
    var searchQuery: string
    var showAddModal: bool
    var formName: string
    var formPhone: string
    var formDebt: Option<real>
    var showDeleteModal: bool
    var workerToDelete: Option<string>

    /** The list shown is the search of the full list. */
    predicate Synced()
      reads this
    {
      filteredWorkers == Search(workers, searchQuery)
    }

    /** The page after the workers and their balances have been fetched. */
    constructor (fetched: seq<Worker>, balances: map<string, real>)
      ensures workers == fetched && filteredWorkers == fetched && this.balances == balances
      ensures searchQuery == "" && Synced()
      ensures !showAddModal && formName == "" && formPhone == "" && formDebt.None?
      ensures !showDeleteModal && workerToDelete.None?
    {
      workers, filteredWorkers := fetched, fetched;
      this.balances := balances;
      searchQuery := "";
      showAddModal := false;
      formName, formPhone, formDebt := "", "", None;
      showDeleteModal, workerToDelete := false, None;
    }

    /** The search effect, run whenever the query or the full list changes. */
    method ApplySearch()
      modifies this`filteredWorkers
      ensures Synced()
    {
      filteredWorkers := Search(workers, searchQuery);
    }

    method SetQuery(q: string)
      modifies this`searchQuery, this`filteredWorkers
      ensures searchQuery == q && Synced()
    {
      searchQuery := q;
      ApplySearch();
    }

    /** Saving the add form. An empty name or phone does nothing, and so does a
        failed store call. On success the new worker is put first in both
        lists and the form is closed and cleared; the list change then runs
        the search effect again, so the shown list is the search of the new
        full list (by `SearchPrepend`, on a synced page that is the new worker
        in front of the old shown list exactly when it matches the query). */
    method AddWorker(ok: bool, id: string, createdAt: string)
      modifies this
      ensures old(formName) == "" || old(formPhone) == "" || !ok ==> unchanged(this)
      ensures old(formName) != "" && old(formPhone) != "" && ok ==>
        workers == [Worker(id, old(formName), old(formPhone), old(formDebt), createdAt)] + old(workers) &&
        !showAddModal && formName == "" && formPhone == "" && formDebt.None? && Synced()
      ensures unchanged(this`balances, this`searchQuery, this`showDeleteModal, this`workerToDelete)
    {
      if formName == "" || formPhone == "" {
        return;
      }
      if !ok {
        return;
      }
      var newWorker := Worker(id, formName, formPhone, formDebt, createdAt);
      workers := [newWorker] + workers;
      filteredWorkers := [newWorker] + filteredWorkers;
      showAddModal := false;
      formName, formPhone, formDebt := "", "", None;
      ApplySearch();
    }

    /** A trash button: remember the worker and ask for confirmation. */
    method RequestDelete(id: string)
      modifies this`workerToDelete, this`showDeleteModal
      ensures workerToDelete == Some(id) && showDeleteModal
    {
      workerToDelete := Some(id);
      showDeleteModal := true;
    }

    /** Confirming the delete. With nothing selected, or when the store call
        fails, nothing changes (the confirmation stays open after a failure).
        On success the worker leaves the full list, the others keep their
        order, and the confirmation closes. The shown list is filtered the
        same way and the search effect runs again; by `SearchRemoveCommute`
        both give the same shown list on a synced page. */
    method ConfirmDelete(ok: bool)
      modifies this
      ensures old(workerToDelete).None? || !ok ==> unchanged(this)
      ensures old(workerToDelete).Some? && ok ==>
        workers == RemoveWorker(old(workers), old(workerToDelete).value) &&
        Synced() && !showDeleteModal && workerToDelete.None?
      ensures unchanged(this`balances, this`searchQuery, this`showAddModal,
                        this`formName, this`formPhone, this`formDebt)
    {
      if workerToDelete.None? {
        return;
      }
      if !ok {
        return;
      }
      var id := workerToDelete.value;
      workers := RemoveWorker(workers, id);
      filteredWorkers := RemoveWorker(filteredWorkers, id);
      showDeleteModal := false;
      workerToDelete := None;
      ApplySearch();
    }
  }
}
