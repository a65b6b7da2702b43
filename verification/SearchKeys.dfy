/**
 The cache keys of semantic search and of RAG queries (vector-search.service.ts,
 rag.service.ts, cache-keys.ts): the text that is hashed names a search without ambiguity,
 whatever characters the query holds, and the two kinds of keys stay apart.
 */
module SearchKeys {
  import opened Texts

  datatype EntityType = Activity | Communication | Ticket

  function Name(t: EntityType): string {
    match t
    case Activity => "activity"
    case Communication => "communication"
    case Ticket => "ticket"
  }

  // The order in which Array.sort puts the names.
  function Rank(t: EntityType): nat {
    match t
    case Activity => 0
    case Communication => 1
    case Ticket => 2
  }

  predicate IsSorted(types: seq<EntityType>) {
    |types| <= 1 || (Rank(types[0]) <= Rank(types[1]) && IsSorted(types[1..]))
  }

  function Insert(t: EntityType, types: seq<EntityType>): (more: seq<EntityType>)
    requires IsSorted(types)
    ensures IsSorted(more) && multiset(more) == multiset(types) + multiset{t}
    ensures more != [] && (more[0] == t || (types != [] && more[0] == types[0]))
  {
    if types == [] || Rank(t) <= Rank(types[0]) then
      assert ([t] + types)[1..] == types;
      [t] + types
    else
      assert types == [types[0]] + types[1..];
      var rest := Insert(t, types[1..]);
      assert ([types[0]] + rest)[1..] == rest;
      [types[0]] + rest
  }

  function Sorted(types: seq<EntityType>): (sorted: seq<EntityType>)
    ensures IsSorted(sorted) && multiset(sorted) == multiset(types)
  {
    if types == [] then []
    else
      assert types == [types[0]] + types[1..];
      Insert(types[0], Sorted(types[1..]))
  }

  function Names(types: seq<EntityType>): (names: seq<string>)
    ensures |names| == |types| && forall i :: 0 <= i < |types| ==> names[i] == Name(types[i])
  {
    if types == [] then [] else [Name(types[0])] + Names(types[1..])
  }

  // A threshold is known by its text, which holds no colon.
  datatype Search = Search(query: string, types: seq<EntityType>, limit: nat, threshold: string)

  predicate IsSearch(s: Search) {
    ':' !in s.threshold
  }

  function KeyText(s: Search): string {
    s.query + ":" + Join(Names(Sorted(s.types)), ",") + ":" + Decimal(s.limit) + ":" + s.threshold
  }

  // ---------------------------------------------------------------- the sorted list is determined by its text

  lemma NameIsPlain(t: EntityType)
    ensures ':' !in Name(t) && ',' !in Name(t) && Name(t) != ""
  {
    match t
    case _ =>
  }

  lemma NamesArePlain(types: seq<EntityType>)
    ensures ArePlain(Names(types), ',') && forall i :: 0 <= i < |types| ==> ':' !in Names(types)[i]
  {
    forall i | 0 <= i < |types| ensures Names(types)[i] != "" && ',' !in Names(types)[i] && ':' !in Names(types)[i] {
      NameIsPlain(types[i]);
    }
  }

  lemma {:induction false} JoinAvoids(parts: seq<string>, c: char)
    requires c != ',' && forall i :: 0 <= i < |parts| ==> c !in parts[i]
    ensures c !in Join(parts, ",")
  {
    if |parts| > 1 {
      JoinAvoids(parts[..|parts| - 1], c);
    }
  }

  lemma NamesAreOneToOne(types: seq<EntityType>, other: seq<EntityType>)
    requires Names(types) == Names(other)
    ensures types == other
  {
    hide Name;
    forall i | 0 <= i < |types| ensures types[i] == other[i] {
      assert Names(types)[i] == Names(other)[i];
      NameIsOneToOne(types[i], other[i]);
    }
  }

  lemma NameIsOneToOne(t: EntityType, u: EntityType)
    ensures Name(t) == Name(u) ==> t == u
  {
    assert Name(t) == Name(u) ==> Name(t)[0] == Name(u)[0];
  }

  lemma {:induction false} HeadIsLeast(types: seq<EntityType>, t: EntityType)
    requires IsSorted(types) && t in types
    ensures Rank(types[0]) <= Rank(t)
  {
    if t != types[0] {
      HeadIsLeast(types[1..], t);
    }
  }

  lemma {:induction false} SortedIsUnique(left: seq<EntityType>, right: seq<EntityType>)
    requires IsSorted(left) && IsSorted(right) && multiset(left) == multiset(right)
    ensures left == right
  {
    assert |multiset(left)| == |left| && |multiset(right)| == |right|;
    if left != [] {
      assert left[0] in multiset(right) && right[0] in multiset(left);
      HeadIsLeast(left, right[0]);
      HeadIsLeast(right, left[0]);
      assert left[0] == right[0];
      hide Rank;
      TailBag(left);
      TailBag(right);
      SortedIsUnique(left[1..], right[1..]);
    }
  }

  lemma TailBag(types: seq<EntityType>)
    requires types != []
    ensures multiset(types[1..]) == multiset(types) - multiset{types[0]}
  {
    assert types == [types[0]] + types[1..];
  }

  // ---------------------------------------------------------------- the text names the search

  // Two searches have one text exactly when query, limit and threshold are equal and the same entity types are asked
  // for, in any order.
  lemma KeyTextNamesSearch(s: Search, t: Search)
    requires IsSearch(s) && IsSearch(t)
    ensures KeyText(s) == KeyText(t) <==>
      s.query == t.query && multiset(s.types) == multiset(t.types) && s.limit == t.limit && s.threshold == t.threshold
  {
    hide IsSorted, Join, Decimal;
    var types, other := Join(Names(Sorted(s.types)), ","), Join(Names(Sorted(t.types)), ",");
    if KeyText(s) == KeyText(t) {
      NamesArePlain(Sorted(s.types));
      NamesArePlain(Sorted(t.types));
      JoinAvoids(Names(Sorted(s.types)), ':');
      JoinAvoids(Names(Sorted(t.types)), ':');
      LastSplit(s.query + ":" + types + ":" + Decimal(s.limit), s.threshold,
                t.query + ":" + other + ":" + Decimal(t.limit), t.threshold, ':');
      LastSplit(s.query + ":" + types, Decimal(s.limit), t.query + ":" + other, Decimal(t.limit), ':');
      LastSplit(s.query, types, t.query, other, ':');
      DecimalIsOneToOne(s.limit, t.limit);
      JoinIsOneToOne(Names(Sorted(s.types)), Names(Sorted(t.types)), ',');
      NamesAreOneToOne(Sorted(s.types), Sorted(t.types));
    }
    if multiset(s.types) == multiset(t.types) {
      SortedIsUnique(Sorted(s.types), Sorted(t.types));
    }
  }

  // ---------------------------------------------------------------- plain and RAG keys

  // CACHE_KEYS.aiSearchResults
  function SearchKey(tenantId: string, queryHash: string): string {
    "ai:search:" + tenantId + ":" + queryHash
  }

  function RagKey(tenantId: string, paramHash: string): string {
    SearchKey(tenantId, "rag:" + paramHash)
  }

  // Hashes are hexadecimal. Search keys are equal only for equal tenants and hashes.
  lemma SearchKeyNamesTenant(tenantId: string, hash: string, other: string, otherHash: string)
    requires ':' !in hash && ':' !in otherHash
    ensures SearchKey(tenantId, hash) == SearchKey(other, otherHash) <==> tenantId == other && hash == otherHash
  {
    if SearchKey(tenantId, hash) == SearchKey(other, otherHash) {
      LastSplit("ai:search:" + tenantId, hash, "ai:search:" + other, otherHash, ':');
      SamePrefix("ai:search:", tenantId, other);
    }
  }

  lemma SamePrefix(prefix: string, left: string, right: string)
    requires prefix + left == prefix + right
    ensures left == right
  {
    assert left == (prefix + left)[|prefix|..] && right == (prefix + right)[|prefix|..];
  }

  // A RAG key is a plain key only for the tenant whose id is the first one's followed by ":rag"; ids without colons
  // never collide.
  lemma RagKeysStayApart(tenantId: string, hash: string, other: string, otherHash: string)
    requires ':' !in hash && ':' !in otherHash
    ensures RagKey(tenantId, hash) == SearchKey(other, otherHash) <==> other == tenantId + ":rag" && otherHash == hash
    ensures ':' !in other ==> RagKey(tenantId, hash) != SearchKey(other, otherHash)
  {
    var longer := tenantId + ":rag";
    assert RagKey(tenantId, hash) == SearchKey(longer, hash);
    SearchKeyNamesTenant(longer, hash, other, otherHash);
    assert longer[|tenantId|] == ':';
  }
}
