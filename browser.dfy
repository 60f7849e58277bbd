/** What a page does to the browser, in the order it does it: router navigations,
    `localStorage` writes, the auth sign-out and pop-ups. Pages append to a log of
    these; the storage a sequence of them leaves behind is computed here. */
module Browser {

  datatype Effect =
    | Push(path: string)                              // router.push
    | Replace(path: string)                           // router.replace
    | SetItem(key: string, value: string)             // localStorage.setItem
    | RemoveItem(key: string)                         // localStorage.removeItem
    | SignOut                                         // supabase.auth.signOut
    | Popup(icon: string, title: string, text: string) // Swal.fire
    | Alert(text: string)                             // window.alert

  predicate IsNavigation(e: Effect) {
    e.Push? || e.Replace?
  }

  /** The paths navigated to, in order. */
  function Navigations(effects: seq<Effect>): (paths: seq<string>)
    ensures |paths| <= |effects|
    ensures (forall i :: 0 <= i < |effects| ==> !IsNavigation(effects[i])) ==> paths == []
  {
    if effects == [] then []
    else
      var rest := Navigations(effects[1..]);
      match effects[0]
      case Push(p) => [p] + rest
      case Replace(p) => [p] + rest
      case _ => rest
  }

  /** A single effect navigates to its own path, if it is a navigation. */
  lemma NavigationsSingle(e: Effect)
    ensures Navigations([e]) == if IsNavigation(e) then [e.path] else []
  {
    assert [e][1..] == [];
  }

  /** `localStorage` after the effects, starting from `store`. */
  function ApplyStorage(store: map<string, string>, effects: seq<Effect>): map<string, string>
    decreases |effects|
  {
    if effects == [] then store
    else
      var last := effects[|effects| - 1];
      var before := ApplyStorage(store, effects[..|effects| - 1]);
      match last
      case SetItem(k, v) => before[k := v]
      case RemoveItem(k) => before - {k}
      case _ => before
  }

  /** A key no effect writes or removes keeps its entry (or its absence). */
  lemma {:induction false} UntouchedKeyUnchanged(store: map<string, string>, effects: seq<Effect>, k: string)
    requires forall i :: 0 <= i < |effects| ==> effects[i] != RemoveItem(k) && !(effects[i].SetItem? && effects[i].key == k)
    ensures (k in ApplyStorage(store, effects)) == (k in store)
    ensures k in store ==> ApplyStorage(store, effects)[k] == store[k]
  {
    if effects != [] {
      var init := effects[..|effects| - 1];
      assert forall i :: 0 <= i < |init| ==> init[i] == effects[i];
      UntouchedKeyUnchanged(store, init, k);
    }
  }
}
