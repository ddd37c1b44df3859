/**
 * The favorites table `favorite_recipes` behind data/local/RecipeDao.kt:
 * one row per recipe id, insert-or-replace, delete by id, existence query.
 */
module Dao {
  import opened Entities

  /** The table contents, keyed by the primary key `id`. */
  type Table = map<string, RecipeEntity>

  /** Every row is stored under its own id. */
  ghost predicate KeyedById(t: Table) {
    forall id :: id in t ==> t[id].id == id
  }

  /** `@Insert(onConflict = REPLACE)`: the row for `e.id` becomes `e`, whether it existed or not. */
  function Insert(t: Table, e: RecipeEntity): (r: Table)
    ensures r.Keys == t.Keys + {e.id} && r[e.id] == e
    ensures forall id :: id in t && id != e.id ==> r[id] == t[id]
    ensures |r| == if e.id in t then |t| else |t| + 1
    ensures KeyedById(t) ==> KeyedById(r)
  {
    t[e.id := e]
  }

  /** `DELETE FROM favorite_recipes WHERE id = :recipeId`: drops that row if present. */
  function Delete(t: Table, id: string): (r: Table)
    ensures r.Keys == t.Keys - {id}
    ensures forall k :: k in r ==> r[k] == t[k]
    ensures |r| == if id in t then |t| - 1 else |t|
    ensures id !in t ==> r == t
    ensures KeyedById(t) ==> KeyedById(r)
  {
    t - {id}
  }

  /** Inserting the same row twice is inserting it once. */
  lemma InsertIdempotent(t: Table, e: RecipeEntity)
    ensures Insert(Insert(t, e), e) == Insert(t, e)
  {
  }

  /** Deleting an inserted row restores the table when the id was new, and in any case removes the id. */
  lemma DeleteAfterInsert(t: Table, e: RecipeEntity)
    ensures e.id !in t ==> Delete(Insert(t, e), e.id) == t
    ensures Delete(Insert(t, e), e.id) == Delete(t, e.id)
  {
  }

  /** No two entries share a primary key. */
  predicate UniqueKeys(s: seq<RecipeEntity>) {
    forall i, j :: 0 <= i < j < |s| ==> s[i].id != s[j].id
  }

  /** The ids of a list of rows. */
  function KeysOf(s: seq<RecipeEntity>): set<string> {
    set i | 0 <= i < |s| :: s[i].id
  }

  /** A duplicate-free list has as many entries as distinct keys. */
  lemma {:induction false} UniqueKeysCount(s: seq<RecipeEntity>)
    requires UniqueKeys(s)
    ensures |KeysOf(s)| == |s|
  {
    if s != [] {
      var n := |s| - 1;
      UniqueKeysCount(s[..n]);
      assert KeysOf(s) == KeysOf(s[..n]) + {s[n].id};
      assert s[n].id !in KeysOf(s[..n]);
    }
  }

  /** The scan so far: `all` lists, once each, the rows whose keys are not `remaining`. */
  ghost predicate ScanSoFar(rows: Table, all: seq<RecipeEntity>, remaining: set<string>) {
    && remaining <= rows.Keys
    && KeysOf(all) == rows.Keys - remaining
    && UniqueKeys(all)
    && forall i :: 0 <= i < |all| ==> all[i].id in rows && rows[all[i].id] == all[i]
  }

  /** Scanning one more row keeps ScanSoFar. */
  lemma ScanStep(rows: Table, all: seq<RecipeEntity>, remaining: set<string>, id: string)
    requires KeyedById(rows) && ScanSoFar(rows, all, remaining) && id in remaining
    ensures ScanSoFar(rows, all + [rows[id]], remaining - {id})
  {
    var e := rows[id];
    var t := all + [e];
    assert t[|all|].id == id;
    forall k | k in KeysOf(all) ensures k in KeysOf(t) {
      var i :| 0 <= i < |all| && all[i].id == k;
      assert t[i] == all[i];
    }
    assert KeysOf(t) == KeysOf(all) + {id};
    forall i, j | 0 <= i < j < |t| ensures t[i].id != t[j].id {
      if j == |all| {
        assert t[i] == all[i];
      }
    }
  }

  /** The DAO over the table `rows`. */
  class RecipeDao {
    var rows: Table

    ghost predicate Valid()
      reads this
    {
      KeyedById(rows)
    }

    /** A fresh database: no rows. */
    constructor ()
      ensures Valid() && rows == map[]
    {
      rows := map[];
    }

    /** `insertRecipe`. */
    method InsertRecipe(recipe: RecipeEntity)
      requires Valid()
      modifies this
      ensures Valid() && rows == Insert(old(rows), recipe)
    {
      rows := rows[recipe.id := recipe];
    }

    /** `deleteRecipeById`. */
    method DeleteRecipeById(recipeId: string)
      requires Valid()
      modifies this
      ensures Valid() && rows == Delete(old(rows), recipeId)
    {
      rows := rows - {recipeId};
    }

    /** `isFavorite`: `SELECT EXISTS(... WHERE id = :recipeId)`, one emission. */
    method IsFavorite(recipeId: string) returns (found: bool)
      ensures found <==> recipeId in rows
    {
      found := recipeId in rows;
    }

    /**
     * `getAllFavoriteRecipes`: `SELECT *`, one emission.  There is no
     * ORDER BY, so the row order is whatever the scan picks: every row once.
     */
    method GetAllFavoriteRecipes() returns (all: seq<RecipeEntity>)
      requires Valid()
      ensures |all| == |rows| && UniqueKeys(all) && KeysOf(all) == rows.Keys
      ensures forall i :: 0 <= i < |all| ==> all[i].id in rows && rows[all[i].id] == all[i]
    {
      all := [];
      var remaining := rows.Keys;
      while remaining != {}
        invariant ScanSoFar(rows, all, remaining)
        decreases |remaining|
      {
        var id :| id in remaining;
        ScanStep(rows, all, remaining, id);
        all := all + [rows[id]];
        remaining := remaining - {id};
      }
      UniqueKeysCount(all);
    }
  }
}
