/** The personal context the chat route and the two chat widgets keep about
    the user (app/api/chat/route.ts, components/floating-chatbot.tsx,
    components/mental-health-chatbot.tsx). An absent name or job is "". */
module PersonalContexts {
  datatype PersonalContext = PersonalContext(
    name: string,
    job: string,
    relationships: seq<string>,
    interests: seq<string>,
    challenges: seq<string>,
    goals: seq<string>,
    previousTopics: seq<string>)

  /** The context a widget starts with: nothing known. */
  const EmptyContext := PersonalContext("", "", [], [], [], [], [])

  predicate NoDuplicates<T(==)>(xs: seq<T>) {
    forall i, j :: 0 <= i < j < |xs| ==> xs[i] != xs[j]
  }

  /** `items.forEach((x) => { if (!list.includes(x)) list.push(x) })`:
      each item is appended unless the list already holds it. */
  function AddAbsent<T(==)>(list: seq<T>, items: seq<T>): (r: seq<T>)
    ensures |list| <= |r| <= |list| + |items|
    ensures r[..|list|] == list
  {
    if items == [] then list
    else
      var prev := AddAbsent(list, items[..|items| - 1]);
      var x := items[|items| - 1];
      if x in prev then prev else prev + [x]
  }

  /** Adding one more item after `items`. */
  lemma AddAbsentSnoc<T>(list: seq<T>, items: seq<T>, x: T)
    ensures AddAbsent(list, items + [x]) ==
      if x in AddAbsent(list, items) then AddAbsent(list, items) else AddAbsent(list, items) + [x]
  {
    assert (items + [x])[..|items|] == items;
  }

  /** The result holds exactly the list's elements and the items. */
  lemma {:induction false} AddAbsentElements<T>(list: seq<T>, items: seq<T>)
    ensures forall x :: x in AddAbsent(list, items) <==> x in list || x in items
  {
    if items != [] {
      var init := items[..|items| - 1];
      AddAbsentElements(list, init);
      assert items == init + [items[|items| - 1]];
    }
  }

  /** A list without duplicates stays without duplicates. */
  lemma {:induction false} AddAbsentNoDuplicates<T>(list: seq<T>, items: seq<T>)
    requires NoDuplicates(list)
    ensures NoDuplicates(AddAbsent(list, items))
  {
    if items != [] {
      AddAbsentNoDuplicates(list, items[..|items| - 1]);
    }
  }

  /** Items already in the list change nothing. */
  lemma {:induction false} AddAbsentPresent<T>(list: seq<T>, items: seq<T>)
    requires forall x :: x in items ==> x in list
    ensures AddAbsent(list, items) == list
  {
    if items != [] {
      AddAbsentPresent(list, items[..|items| - 1]);
    }
  }

  /** Adding the same items twice is adding them once. */
  lemma AddAbsentIdempotent<T>(list: seq<T>, items: seq<T>)
    ensures AddAbsent(AddAbsent(list, items), items) == AddAbsent(list, items)
  {
    AddAbsentElements(list, items);
    AddAbsentPresent(AddAbsent(list, items), items);
  }

  /** The list grows exactly when some item was missing from it. */
  lemma AddAbsentGrows<T>(list: seq<T>, items: seq<T>)
    ensures AddAbsent(list, items) != list <==> exists x :: x in items && x !in list
  {
    if forall x :: x in items ==> x in list {
      AddAbsentPresent(list, items);
    } else {
      AddAbsentElements(list, items);
      var x :| x in items && x !in list;
      assert x in AddAbsent(list, items);
    }
  }
}
