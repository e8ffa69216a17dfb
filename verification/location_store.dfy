/**
 * The location store: one shared state record (current point, address,
 * fetched geography, loading flag, error message) changed by four setters and
 * a reset. Each setter is a pure update of the record; the store applies it
 * to its cell. Subscription and change notification are not modelled.
 */
module Location {
  import opened Wrappers
  import opened LAGeography

  /** The store's state; `None` is a key that is missing from the record. */
  datatype LocationData = LocationData(
    coordinates: Coordinates,
    address: Option<string>,
    geographyData: Option<LAGeographyResponse>,
    loading: bool,
    error: Option<string>)

  // ---------------------------------------------------------------------------
  // The record updates
  // ---------------------------------------------------------------------------

  /** The state the store starts in and returns to on reset. */
  function Initial(): (s: LocationData)
    ensures s.coordinates == Coordinates(0.0, 0.0) && !s.loading
    ensures s.address == None && s.geographyData == None && s.error == None
  {
    LocationData(Coordinates(0.0, 0.0), None, None, false, None)
  }

  /** `setCoordinates`: new point and address; an omitted address clears the old one. */
  function WithCoordinates(s: LocationData, lat: real, lon: real, address: Option<string>): (t: LocationData)
    ensures t.coordinates == Coordinates(lat, lon) && t.address == address
    ensures t.geographyData == s.geographyData && t.loading == s.loading && t.error == s.error
  {
    s.(coordinates := Coordinates(lat, lon), address := address)
  }

  /** `setGeographyData`: stores the lookup result and settles loading; an earlier error stays. */
  function WithGeographyData(s: LocationData, data: LAGeographyResponse): (t: LocationData)
    ensures t.geographyData == Some(data) && !t.loading
    ensures t.coordinates == s.coordinates && t.address == s.address && t.error == s.error
  {
    s.(geographyData := Some(data), loading := false)
  }

  /** `setLoading`: only the flag changes. */
  function WithLoading(s: LocationData, loading: bool): (t: LocationData)
    ensures t.loading == loading
    ensures t.coordinates == s.coordinates && t.address == s.address
    ensures t.geographyData == s.geographyData && t.error == s.error
  {
    s.(loading := loading)
  }

  /** `setError`: records the message and settles loading; earlier geography data stays. */
  function WithError(s: LocationData, message: string): (t: LocationData)
    ensures t.error == Some(message) && !t.loading
    ensures t.coordinates == s.coordinates && t.address == s.address && t.geographyData == s.geographyData
  {
    s.(error := Some(message), loading := false)
  }

  // ---------------------------------------------------------------------------
  // Sequences of store operations
  // ---------------------------------------------------------------------------

  /** One call on the store. */
  datatype Action =
    | SetCoordinates(lat: real, lon: real, address: Option<string>)
    | SetGeographyData(data: LAGeographyResponse)
    | SetLoading(flag: bool)
    | SetError(message: string)
    | Reset

  function Apply(s: LocationData, a: Action): LocationData
  {
    match a
    case SetCoordinates(lat, lon, address) => WithCoordinates(s, lat, lon, address)
    case SetGeographyData(data) => WithGeographyData(s, data)
    case SetLoading(flag) => WithLoading(s, flag)
    case SetError(message) => WithError(s, message)
    case Reset => Initial()
  }

  /** The state after the actions, in order, starting from `s`. */
  function Replay(s: LocationData, actions: seq<Action>): LocationData
    decreases |actions|
  {
    if |actions| == 0 then s
    else Apply(Replay(s, actions[..|actions| - 1]), actions[|actions| - 1])
  }

  /** The fields of the state. */
  datatype Field = CoordinatesField | AddressField | GeographyField | LoadingField | ErrorField

  /** Which fields each call may write, read off the store's definition. */
  predicate Writes(a: Action, f: Field)
  {
    match a
    case SetCoordinates(_, _, _) => f == CoordinatesField || f == AddressField
    case SetGeographyData(_) => f == GeographyField || f == LoadingField
    case SetLoading(_) => f == LoadingField
    case SetError(_) => f == ErrorField || f == LoadingField
    case Reset => true
  }

  /** `s` and `t` hold the same value in field `f`. */
  predicate Agree(s: LocationData, t: LocationData, f: Field)
  {
    match f
    case CoordinatesField => s.coordinates == t.coordinates
    case AddressField => s.address == t.address
    case GeographyField => s.geographyData == t.geographyData
    case LoadingField => s.loading == t.loading
    case ErrorField => s.error == t.error
  }

  /** A call leaves every field it does not write as it was. */
  lemma ApplyFrame(s: LocationData, a: Action, f: Field)
    requires !Writes(a, f)
    ensures Agree(s, Apply(s, a), f)
  {
  }

  /** A field that no action in the sequence writes keeps its value through the whole sequence. */
  lemma {:induction false} ReplayFrame(s: LocationData, actions: seq<Action>, f: Field)
    requires forall i :: 0 <= i < |actions| ==> !Writes(actions[i], f)
    ensures Agree(s, Replay(s, actions), f)
  {
    if |actions| > 0 {
      var prefix := actions[..|actions| - 1];
      ReplayFrame(s, prefix, f);
      ApplyFrame(Replay(s, prefix), actions[|actions| - 1], f);
    }
  }

  /** Resetting yields the initial state, whatever the state was. */
  lemma ResetFromAnyState(s: LocationData)
    ensures Apply(s, Reset) == LocationData(Coordinates(0.0, 0.0), None, None, false, None)
  {
  }

  /** A call that settles a lookup (data, error or reset) clears `loading`. */
  predicate Settles(a: Action)
  {
    a.SetGeographyData? || a.SetError? || a.Reset?
  }

  /** Once a lookup settles, `loading` stays false until `setLoading` is called again. */
  lemma {:induction false} SettledStaysIdle(s: LocationData, actions: seq<Action>, i: nat)
    requires i < |actions| && Settles(actions[i])
    requires forall j :: i < j < |actions| ==> !actions[j].SetLoading?
    ensures !Replay(s, actions).loading
  {
    if i < |actions| - 1 {
      SettledStaysIdle(s, actions[..|actions| - 1], i);
    }
  }

  /** If `loading` is true but was not at the start, some `setLoading(true)` came after every call that clears it. */
  lemma {:induction false} LoadingHasCause(s: LocationData, actions: seq<Action>)
    requires !s.loading && Replay(s, actions).loading
    ensures exists i :: 0 <= i < |actions| && actions[i] == SetLoading(true) &&
              forall j :: i < j < |actions| ==> !Settles(actions[j]) && actions[j] != SetLoading(false)
  {
    var n := |actions|;
    assert n > 0;
    var last := actions[n - 1];
    var prefix := actions[..n - 1];
    if last == SetLoading(true) {
      assert actions[n - 1] == SetLoading(true);
    } else {
      assert last.SetCoordinates?;
      LoadingHasCause(s, prefix);
      var i :| 0 <= i < |prefix| && prefix[i] == SetLoading(true) &&
               forall j :: i < j < |prefix| ==> !Settles(prefix[j]) && prefix[j] != SetLoading(false);
      assert actions[i] == SetLoading(true);
      assert forall j :: i < j < n ==> !Settles(actions[j]) && actions[j] != SetLoading(false) by {
        forall j | i < j < n
          ensures !Settles(actions[j]) && actions[j] != SetLoading(false)
        {
          if j < n - 1 {
            assert actions[j] == prefix[j];
          }
        }
      }
    }
  }

  /** Data followed by an error leaves both in the state: the error does not clear stale data. */
  lemma ErrorKeepsStaleData(s: LocationData, data: LAGeographyResponse, message: string)
    ensures var t := Replay(s, [SetGeographyData(data), SetError(message)]);
      t.geographyData == Some(data) && t.error == Some(message) && !t.loading
  {
    assert [SetGeographyData(data), SetError(message)][..1] == [SetGeographyData(data)];
    assert [SetGeographyData(data)][..0] == [];
  }

  /** The data of the last `setGeographyData` stays, whichever point it was for, unless a reset comes after it. */
  lemma {:induction false} LastWriteWins(s: LocationData, actions: seq<Action>, i: nat, data: LAGeographyResponse)
    requires i < |actions| && actions[i] == SetGeographyData(data)
    requires forall j :: i < j < |actions| ==> !actions[j].SetGeographyData? && !actions[j].Reset?
    ensures Replay(s, actions).geographyData == Some(data)
  {
    if i < |actions| - 1 {
      var prefix := actions[..|actions| - 1];
      LastWriteWins(s, prefix, i, data);
      ApplyFrame(Replay(s, prefix), actions[|actions| - 1], GeographyField);
    }
  }

  // ---------------------------------------------------------------------------
  // The store
  // ---------------------------------------------------------------------------

  /** The shared cell. `history` records the calls made since creation. */
  class LocationStore {
    var state: LocationData
    ghost var history: seq<Action>

    ghost predicate Valid()
      reads this
    {
      state == Replay(Initial(), history)
    }

    constructor ()
      ensures Valid() && history == [] && state == Initial()
    {
      state := Initial();
      history := [];
    }

    method SetCoordinates(lat: real, lon: real, address: Option<string>)
      requires Valid()
      modifies this
      ensures Valid() && history == old(history) + [Action.SetCoordinates(lat, lon, address)]
      ensures state == WithCoordinates(old(state), lat, lon, address)
    {
      state := WithCoordinates(state, lat, lon, address);
      history := history + [Action.SetCoordinates(lat, lon, address)];
      assert history[..|history| - 1] == old(history);
    }

    method SetGeographyData(data: LAGeographyResponse)
      requires Valid()
      modifies this
      ensures Valid() && history == old(history) + [Action.SetGeographyData(data)]
      ensures state == WithGeographyData(old(state), data)
    {
      state := WithGeographyData(state, data);
      history := history + [Action.SetGeographyData(data)];
      assert history[..|history| - 1] == old(history);
    }

    method SetLoading(loading: bool)
      requires Valid()
      modifies this
      ensures Valid() && history == old(history) + [Action.SetLoading(loading)]
      ensures state == WithLoading(old(state), loading)
    {
      state := WithLoading(state, loading);
      history := history + [Action.SetLoading(loading)];
      assert history[..|history| - 1] == old(history);
    }

    method SetError(message: string)
      requires Valid()
      modifies this
      ensures Valid() && history == old(history) + [Action.SetError(message)]
      ensures state == WithError(old(state), message)
    {
      state := WithError(state, message);
      history := history + [Action.SetError(message)];
      assert history[..|history| - 1] == old(history);
    }

    method Reset()
      requires Valid()
      modifies this
      ensures Valid() && history == old(history) + [Action.Reset]
      ensures state == Initial()
    {
      state := Initial();
      history := history + [Action.Reset];
      assert history[..|history| - 1] == old(history);
    }
  }

  /** A store that is loading got there by a `setLoading(true)` that nothing has cleared since. */
  lemma StoreLoadingHasCause(store: LocationStore)
    requires store.Valid() && store.state.loading
    ensures exists i :: 0 <= i < |store.history| && store.history[i] == SetLoading(true) &&
              forall j :: i < j < |store.history| ==> !Settles(store.history[j]) && store.history[j] != SetLoading(false)
  {
    LoadingHasCause(Initial(), store.history);
  }
}
