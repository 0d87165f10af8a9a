/**
 * `DeleteCategoriesUseCase`: look a category up by id, fail with
 * `NotFoundError` when it is absent, otherwise delete it from the store.
 */
module DeleteCategories {
  import opened Wrappers
  import opened ApplicationErrors
  import opened Categories

  /** A call made on the categories repository, as a test spy records it. */
  datatype RepositoryCall = FindByIdCall(id: string) | DeleteCall(id: string)

  /** The result of deleting `id` from `store`: what `execute` returns and the store afterwards. */
  datatype Deletion = Deletion(outcome: Outcome<ApplicationError>, store: map<string, CategoryEntity>)

  /** The specification of one `execute` call on a store whose contents are `store`. */
  function DeleteCategory(store: map<string, CategoryEntity>, id: string): (r: Deletion)
    ensures r.outcome.Fail? <==> id !in store
    ensures r.outcome.Fail? ==> r.outcome.error == NotFoundError && r.store == store
    ensures r.outcome.Pass? ==> r.store.Keys == store.Keys - {id} && |r.store| == |store| - 1
    ensures forall k :: k in r.store ==> k in store && r.store[k] == store[k]
  {
    if id !in store then Deletion(Fail(NotFoundError), store)
    else
      var rest := store - {id};
      assert store.Keys == rest.Keys + {id};
      Deletion(Pass, rest)
  }

  /** Deleting the same id twice: the second call fails with NotFound and changes nothing. */
  lemma DeleteTwiceFails(store: map<string, CategoryEntity>, id: string)
    ensures var first := DeleteCategory(store, id);
            DeleteCategory(first.store, id) == Deletion(Fail(NotFoundError), first.store)
  {
  }

  /** A deletion only ever removes `id`: every other entry is kept, with its value. */
  lemma DeleteKeepsOthers(store: map<string, CategoryEntity>, id: string, k: string)
    requires k in store && k != id
    ensures k in DeleteCategory(store, id).store
    ensures DeleteCategory(store, id).store[k] == store[k]
  {
  }

  /** The categories collection of the database service, with a spy on its calls. */
  class CategoriesRepository {
    var categories: map<string, CategoryEntity>
    ghost var calls: seq<RepositoryCall>

    constructor (initial: map<string, CategoryEntity>)
      ensures categories == initial && calls == []
    {
      categories := initial;
      calls := [];
    }

    /** `findById`: the category stored under `id`, or nothing. */
    method FindById(id: string) returns (r: Option<CategoryEntity>)
      modifies this`calls
      ensures r.Some? <==> id in categories
      ensures r.Some? ==> r.value == categories[id]
      ensures categories == old(categories)
      ensures calls == old(calls) + [FindByIdCall(id)]
    {
      calls := calls + [FindByIdCall(id)];
      r := if id in categories then Some(categories[id]) else None;
    }

    /** `delete`: removes the entry stored under `id`. */
    method Delete(id: string)
      modifies this
      ensures categories == old(categories) - {id}
      ensures calls == old(calls) + [DeleteCall(id)]
    {
      calls := calls + [DeleteCall(id)];
      categories := categories - {id};
    }
  }

  class DeleteCategoriesUseCase {
    const repository: CategoriesRepository

    constructor (repository: CategoriesRepository)
      ensures this.repository == repository
    {
      this.repository := repository;
    }

    /**
     * `execute`: the lookup is always made first; `delete` is reached only when
     * the lookup found the category, and then with exactly `categoryId`.
     */
    method Execute(categoryId: string) returns (r: Outcome<ApplicationError>)
      modifies repository
      ensures r == DeleteCategory(old(repository.categories), categoryId).outcome
      ensures repository.categories == DeleteCategory(old(repository.categories), categoryId).store
      ensures repository.calls == old(repository.calls) + [FindByIdCall(categoryId)]
                                  + (if r.Pass? then [DeleteCall(categoryId)] else [])
    {
      var existentCategory := repository.FindById(categoryId);
      if existentCategory.None? {
        return Fail(NotFoundError);
      }
      repository.Delete(categoryId);
      r := Pass;
    }
  }
}
