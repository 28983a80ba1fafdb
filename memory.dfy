/**
 * The agent's long-term memory (memory.py): a vector store that `mem_add`
 * appends a `"<kind>: <text>"` document to and `mem_recall` queries by
 * similarity.
 *
 * The store keeps its documents in insertion order. Which documents a
 * similarity search ranks first is not specifiable; it is a parameter that picks
 * distinct stored documents, `min(k, n)` of them as the store returns.
 * Whether `add_texts` fails (an embedding error, say) is a parameter as well.
 */
module Memory {

  /** The vector store, as the list of documents it holds. */
  class MemoryStore {
    var texts: seq<string>

    constructor(initial: seq<string>)
      ensures texts == initial
    {
      texts := initial;
    }
  }

  /** The default `kind` of `mem_add`. */
  const DEFAULT_KIND := "note"

  /** The document `mem_add` stores. */
  function Entry(kind: string, text: string): string
  {
    kind + ": " + text
  }

  /** `mem_add(text, kind)`: with a store, one document is appended, unless adding
      fails, in which case the failure is swallowed and nothing changes; with no
      store nothing happens. */
  method MemAdd(store: MemoryStore?, text: string, kind: string, addSucceeds: string -> bool)
    modifies store
    ensures store != null && addSucceeds(Entry(kind, text)) ==>
              store.texts == old(store.texts) + [Entry(kind, text)]
    ensures store != null && !addSucceeds(Entry(kind, text)) ==> store.texts == old(store.texts)
  {
    if store != null {
      var entry := Entry(kind, text);
      if addSucceeds(entry) {
        store.texts := store.texts + [entry];
      }
    }
  }

  /** A similarity search over `texts`: indices of distinct stored documents,
      `min(k, |texts|)` of them. */
  type Search = (seq<string>, string, nat) -> seq<nat>

  function Min(a: int, b: int): int
  {
    if a <= b then a else b
  }

  predicate IsRanking(texts: seq<string>, k: nat, ranking: seq<nat>)
  {
    && |ranking| == Min(k, |texts|)
    && (forall i :: 0 <= i < |ranking| ==> ranking[i] < |texts|)
    && (forall i, j :: 0 <= i < j < |ranking| ==> ranking[i] != ranking[j])
  }

  ghost predicate SimilaritySearch(search: Search)
  {
    forall texts, query, k :: IsRanking(texts, k, search(texts, query, k))
  }

  /** The documents at the ranked positions. */
  function Select(texts: seq<string>, ranking: seq<nat>): (docs: seq<string>)
    requires forall i :: 0 <= i < |ranking| ==> ranking[i] < |texts|
    ensures |docs| == |ranking|
    ensures forall i :: 0 <= i < |docs| ==> docs[i] == texts[ranking[i]]
  {
    seq(|ranking|, i requires 0 <= i < |ranking| => texts[ranking[i]])
  }

  /** `mem_recall(query, k)`: `[]` with no store, otherwise the page contents of
      the `k` most similar documents. */
  function MemRecall(store: MemoryStore?, search: Search, query: string, k: nat): (docs: seq<string>)
    requires SimilaritySearch(search)
    reads store
    ensures store == null ==> docs == []
    ensures store != null ==> |docs| == Min(k, |store.texts|)
    ensures store != null ==> forall d :: d in docs ==> d in store.texts
  {
    if store == null then []
    else
      var ranking := search(store.texts, query, k);
      assert IsRanking(store.texts, k, ranking);
      Select(store.texts, ranking)
  }

  /** A recall comes back empty exactly when there is no store, the store is
      empty, or nothing was asked for. */
  lemma RecallEmptyIff(store: MemoryStore?, search: Search, query: string, k: nat)
    requires SimilaritySearch(search)
    ensures MemRecall(store, search, query, k) == [] <==>
              (store == null || store.texts == [] || k == 0)
  {
    var docs := MemRecall(store, search, query, k);
    if store != null && store.texts != [] && k != 0 {
      assert |docs| >= 1;
    }
  }
}
