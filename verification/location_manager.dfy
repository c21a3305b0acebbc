/** `LocationManager`: a one-shot location request bridged from CoreLocation's
    delegate callbacks to a single awaiting caller. Each delegate callback, the
    end of a timeout task and `deinit` is an event method; the calls the manager
    makes into CoreLocation are recorded rather than performed. */
module LocationManager {
  import opened Wrappers
  import opened Platform
  import opened Errors

  /** `CLAuthorizationStatus` */
  datatype AuthorizationStatus = NotDetermined | Restricted | Denied | AuthorizedAlways | AuthorizedWhenInUse

  /** `.denied` or `.restricted` */
  predicate Refused(s: AuthorizationStatus) {
    s == Denied || s == Restricted
  }

  /** `.authorizedWhenInUse` or `.authorizedAlways` */
  predicate Authorized(s: AuthorizationStatus) {
    s == AuthorizedWhenInUse || s == AuthorizedAlways
  }

  /** A started timeout task whose body has not yet run: the request whose
      device request started it, and whether it has been cancelled. */
  datatype TimeoutTask = TimeoutTask(request: nat, cancelled: bool)

  /** How an awaiting request is resumed: with a coordinate or with an error. */
  type Outcome = Result<Coordinate, AnyError>

  class LocationManager {
    /** `manager.authorizationStatus`, as CoreLocation last reported it. */
    var status: AuthorizationStatus
    /** `continuation`: the number of the request awaiting its outcome, if any. */
    var continuation: Option<nat>
    var didRequestLocation: bool
    /** `timeoutTask`: the number of the current timeout task, if any. */
    var timeoutTask: Option<nat>
    /** The timeout tasks started and not yet finished, by number. */
    var tasks: map<nat, TimeoutTask>
    /** How many requests have been accepted, and how many timeout tasks started. */
    var accepted: nat
    var started: nat
    /** The outcome each accepted request was resumed with. */
    var outcomes: map<nat, Outcome>
    /** The requests `manager.requestLocation()` was called for, in order. */
    var deviceRequests: seq<nat>
    /** How many times `manager.requestWhenInUseAuthorization()` was called. */
    var authorizationPrompts: nat
    /** Whether `deinit` has run. */
    var released: bool

    /** The request bookkeeping: every accepted request is either awaiting or
        resumed, never both; each is handed to the device at most once, and only
        while it awaits; a timeout task is live (not cancelled) only while it is
        the current one, armed for the awaiting request. */
    ghost predicate Valid()
      reads this
    {
      && (forall r :: r in outcomes ==> r < accepted)
      && (forall r :: 0 <= r < accepted ==> (r in outcomes <==> continuation != Some(r)))
      && (continuation.Some? ==> continuation.value < accepted)
      && (forall i :: 0 <= i < |deviceRequests| ==> deviceRequests[i] < accepted)
      && (forall i, j :: 0 <= i < j < |deviceRequests| ==> deviceRequests[i] != deviceRequests[j])
      && (didRequestLocation ==> continuation.Some?)
      && (continuation.Some? ==> (didRequestLocation <==> continuation.value in deviceRequests))
      && (didRequestLocation <==> timeoutTask.Some?)
      && (timeoutTask.Some? ==>
            continuation.Some? && timeoutTask.value in tasks &&
            tasks[timeoutTask.value] == TimeoutTask(continuation.value, false))
      && (forall t :: t in tasks ==> t < started)
      && (forall t :: t in tasks && !tasks[t].cancelled ==> timeoutTask == Some(t))
      && (released ==> continuation.None?)
    }

    /** No outcome is ever replaced: each request is resumed at most once. */
    twostate predicate KeepsOutcomes()
      reads this
    {
      forall r :: r in old(outcomes) ==> r in outcomes && outcomes[r] == old(outcomes)[r]
    }

    /** The effect of `completeContinuationIfPresent(with: result)`: the awaiting
        request, if any, is resumed with `result`; the pending state and the
        current timeout task are cleared, the latter cancelled. */
    twostate predicate CompletedWith(result: Outcome)
      reads this
    {
      && continuation.None? && !didRequestLocation && timeoutTask.None?
      && outcomes == (if old(continuation).Some? then old(outcomes)[old(continuation).value := result] else old(outcomes))
      && tasks == (if old(timeoutTask).Some? && old(timeoutTask).value in old(tasks)
                   then old(tasks)[old(timeoutTask).value := old(tasks)[old(timeoutTask).value].(cancelled := true)]
                   else old(tasks))
      && accepted == old(accepted) && started == old(started)
      && deviceRequests == old(deviceRequests) && authorizationPrompts == old(authorizationPrompts)
    }

    /** The effect of `startRequestingLocation()`: when a request awaits and has
        not been handed to the device, it is, and a timeout task is armed for it;
        otherwise nothing happens. */
    twostate predicate StartedIfAwaiting()
      reads this
    {
      && continuation == old(continuation) && outcomes == old(outcomes) && accepted == old(accepted)
      && authorizationPrompts == old(authorizationPrompts)
      && if old(continuation).Some? && !old(didRequestLocation) then
           && didRequestLocation
           && deviceRequests == old(deviceRequests) + [old(continuation).value]
           && timeoutTask == Some(old(started)) && started == old(started) + 1
           && tasks == old(tasks)[old(started) := TimeoutTask(old(continuation).value, false)]
         else
           && didRequestLocation == old(didRequestLocation) && deviceRequests == old(deviceRequests)
           && timeoutTask == old(timeoutTask) && started == old(started) && tasks == old(tasks)
    }

    /** `init(manager:)`, with CoreLocation's current authorization status. */
    constructor (initialStatus: AuthorizationStatus)
      ensures Valid()
      ensures status == initialStatus && continuation.None? && !didRequestLocation && timeoutTask.None?
      ensures tasks == map[] && accepted == 0 && started == 0 && outcomes == map[]
      ensures deviceRequests == [] && authorizationPrompts == 0 && !released
    {
      status := initialStatus;
      continuation := None;
      didRequestLocation := false;
      timeoutTask := None;
      tasks := map[];
      accepted, started := 0, 0;
      outcomes := map[];
      deviceRequests := [];
      authorizationPrompts := 0;
      released := false;
    }

    /** `currentLocation()`: refuses while a request awaits or when authorization
        is refused; otherwise accepts a new request (numbered `accepted`), prompts
        for authorization when it is undetermined, and hands the request to the
        device only when authorization is already granted. */
    method CurrentLocation() returns (r: Result<nat, LocationError>)
      requires Valid() && !released
      modifies this
      ensures Valid() && KeepsOutcomes()
      ensures old(continuation).Some? ==> r == Failure(RequestAlreadyInProgress) && unchanged(this)
      ensures old(continuation).None? && Refused(old(status)) ==> r == Failure(AuthorizationDenied) && unchanged(this)
      ensures old(continuation).None? && !Refused(old(status)) ==>
        && r == Success(old(accepted))
        && accepted == old(accepted) + 1 && continuation == Some(old(accepted)) && outcomes == old(outcomes)
        && status == old(status) && released == old(released)
        && authorizationPrompts == old(authorizationPrompts) + (if old(status) == NotDetermined then 1 else 0)
        && (Authorized(old(status)) ==>
              && didRequestLocation && deviceRequests == old(deviceRequests) + [old(accepted)]
              && timeoutTask == Some(old(started)) && started == old(started) + 1
              && tasks == old(tasks)[old(started) := TimeoutTask(old(accepted), false)])
        && (!Authorized(old(status)) ==>
              && !didRequestLocation && deviceRequests == old(deviceRequests)
              && timeoutTask.None? && started == old(started) && tasks == old(tasks))
    {
      if continuation.Some? {
        return Failure(RequestAlreadyInProgress);
      }
      if Refused(status) {
        return Failure(AuthorizationDenied);
      }
      if status == NotDetermined {
        authorizationPrompts := authorizationPrompts + 1;
      }
      r := Success(accepted);
      continuation := Some(accepted);
      didRequestLocation := false;
      accepted := accepted + 1;
      if Authorized(status) {
        StartRequestingLocation();
      }
    }

    /** `startRequestingLocation()`. The `timeoutTask?.cancel()` before a new task
        is armed never finds a task: one exists only while a device request is
        outstanding, and then nothing is started. */
    method StartRequestingLocation()
      requires Valid()
      modifies this
      ensures Valid() && KeepsOutcomes() && StartedIfAwaiting()
      ensures status == old(status) && released == old(released)
    {
      var shouldStart := continuation.Some? && !didRequestLocation;
      if shouldStart {
        didRequestLocation := true;
      }
      if !shouldStart {
        return;
      }
      deviceRequests := deviceRequests + [continuation.value];
      tasks := tasks[started := TimeoutTask(continuation.value, false)];
      timeoutTask := Some(started);
      started := started + 1;
    }

    /** `completeContinuationIfPresent(with:)`: a no-op on the outcomes when no
        request awaits. */
    method CompleteContinuationIfPresent(result: Outcome)
      requires Valid()
      modifies this
      ensures Valid() && KeepsOutcomes() && CompletedWith(result)
      ensures status == old(status) && released == old(released)
    {
      var cont := continuation;
      continuation := None;
      didRequestLocation := false;
      if timeoutTask.Some? {
        tasks := tasks[timeoutTask.value := tasks[timeoutTask.value].(cancelled := true)];
      }
      timeoutTask := None;
      if cont.Some? {
        outcomes := outcomes[cont.value := result];
      }
    }

    /** `locationManager(_:didUpdateLocations:)`: resumes with the first
        location's coordinate, or with `unableToDetermineLocation` for an empty list. */
    method LocationsDelivered(locations: seq<Coordinate>)
      requires Valid() && !released
      modifies this
      ensures Valid() && KeepsOutcomes()
      ensures CompletedWith(if locations == [] then Failure(Location(UnableToDetermineLocation)) else Success(locations[0]))
      ensures status == old(status) && released == old(released)
    {
      if locations == [] {
        CompleteContinuationIfPresent(Failure(Location(UnableToDetermineLocation)));
        return;
      }
      CompleteContinuationIfPresent(Success(locations[0]));
    }

    /** `locationManager(_:didFailWithError:)`: resumes with CoreLocation's error. */
    method FailedWithError(error: AnyError)
      requires Valid() && !released
      modifies this
      ensures Valid() && KeepsOutcomes() && CompletedWith(Failure(error))
      ensures status == old(status) && released == old(released)
    {
      CompleteContinuationIfPresent(Failure(error));
    }

    /** `locationManagerDidChangeAuthorization(_:)`: a refusal fails the awaiting
        request with `authorizationDenied`; a grant hands an awaiting request to
        the device if it has not been yet (the same steps as
        `startRequestingLocation()`); an undetermined status changes nothing else. */
    method AuthorizationChanged(newStatus: AuthorizationStatus)
      requires Valid() && !released
      modifies this
      ensures Valid() && KeepsOutcomes()
      ensures status == newStatus && released == old(released)
      ensures Refused(newStatus) ==> CompletedWith(Failure(Location(AuthorizationDenied)))
      ensures Authorized(newStatus) ==> StartedIfAwaiting()
      ensures newStatus == NotDetermined ==>
        && continuation == old(continuation) && didRequestLocation == old(didRequestLocation)
        && timeoutTask == old(timeoutTask) && tasks == old(tasks) && accepted == old(accepted) && started == old(started)
        && outcomes == old(outcomes) && deviceRequests == old(deviceRequests)
        && authorizationPrompts == old(authorizationPrompts)
    {
      status := newStatus;
      if Refused(newStatus) {
        CompleteContinuationIfPresent(Failure(Location(AuthorizationDenied)));
      } else if Authorized(newStatus) {
        StartRequestingLocation();
      }
    }

    /** The body of timeout task `t` runs, its sleep having ended. A task that
        was cancelled does nothing; a live one is the current task, armed for the
        awaiting request, which it fails with `timeout`. Once the manager is
        released the body finds no manager and does nothing. */
    method TimeoutTaskFinishes(t: nat)
      requires Valid() && t in tasks
      modifies this
      ensures Valid() && KeepsOutcomes()
      ensures status == old(status) && released == old(released)
      ensures accepted == old(accepted) && started == old(started)
      ensures deviceRequests == old(deviceRequests) && authorizationPrompts == old(authorizationPrompts)
      ensures tasks == old(tasks) - {t}
      // a task only ever fails the request it was armed for, and only with a timeout
      ensures forall r :: r in outcomes && r !in old(outcomes) ==>
        r == old(tasks)[t].request && outcomes[r] == Failure(Location(Timeout))
      ensures !old(tasks)[t].cancelled && !old(released) ==>
        && old(continuation) == Some(old(tasks)[t].request)
        && outcomes == old(outcomes)[old(tasks)[t].request := Failure(Location(Timeout))]
        && continuation.None? && !didRequestLocation && timeoutTask.None?
      ensures old(tasks)[t].cancelled || old(released) ==>
        && outcomes == old(outcomes) && continuation == old(continuation)
        && didRequestLocation == old(didRequestLocation) && timeoutTask == old(timeoutTask)
    {
      if !released && !tasks[t].cancelled {
        CompleteContinuationIfPresent(Failure(Location(Timeout)));
      }
      tasks := tasks - {t};
    }

    /** The body of timeout task `t` as the source writes it: `try? await
        Task.sleep` also returns when the task is cancelled, so even a cancelled
        task goes on to fail whatever request awaits at that moment. */
    method TimeoutTaskFinishesAsWritten(t: nat)
      requires Valid() && t in tasks
      modifies this
      ensures Valid() && KeepsOutcomes()
      ensures status == old(status) && released == old(released)
      ensures accepted == old(accepted) && started == old(started)
      ensures deviceRequests == old(deviceRequests) && authorizationPrompts == old(authorizationPrompts)
      ensures outcomes == if !old(released) && old(continuation).Some?
                          then old(outcomes)[old(continuation).value := Failure(Location(Timeout))]
                          else old(outcomes)
      ensures !old(released) ==> continuation.None? && !didRequestLocation && timeoutTask.None?
      ensures old(released) ==>
        continuation == old(continuation) && didRequestLocation == old(didRequestLocation) && timeoutTask == old(timeoutTask)
      // the current timeout task, whichever it is, is cancelled
      ensures tasks == (if !old(released) && old(timeoutTask).Some?
                        then old(tasks)[old(timeoutTask).value := old(tasks)[old(timeoutTask).value].(cancelled := true)]
                        else old(tasks)) - {t}
    {
      if !released {
        CompleteContinuationIfPresent(Failure(Location(Timeout)));
      }
      tasks := tasks - {t};
    }

    /** `deinit`: an awaiting request is failed with `unableToDetermineLocation`. */
    method Deinit()
      requires Valid() && !released
      modifies this
      ensures Valid() && KeepsOutcomes() && CompletedWith(Failure(Location(UnableToDetermineLocation)))
      ensures released && status == old(status)
    {
      CompleteContinuationIfPresent(Failure(Location(UnableToDetermineLocation)));
      released := true;
    }
  }

  /** The outcome of request `r`, if it has one yet. */
  function OutcomeOf(m: LocationManager, r: nat): Option<Outcome>
    reads m
  {
    if r in m.outcomes then Some(m.outcomes[r]) else None
  }

  /** With the timeout tasks as written: request 0 is answered, which cancels its
      timeout task; request 1 is accepted and handed to the device; the cancelled
      task of request 0 then runs and fails request 1 with `timeout`, long before
      request 1's own timeout. */
  method StaleTimeoutAsWritten(here: Coordinate) returns (first: Option<Outcome>, second: Option<Outcome>)
    ensures first == Some(Success(here))
    ensures second == Some(Failure(Location(Timeout)))
  {
    var m := new LocationManager(AuthorizedWhenInUse);
    var a := m.CurrentLocation();
    m.LocationsDelivered([here]);
    var b := m.CurrentLocation();
    m.TimeoutTaskFinishesAsWritten(0);
    first, second := OutcomeOf(m, 0), OutcomeOf(m, 1);
  }

  /** The same events with the cancelled task doing nothing: request 1 still
      awaits its location. */
  method StaleTimeoutCorrected(here: Coordinate) returns (first: Option<Outcome>, second: Option<Outcome>)
    ensures first == Some(Success(here))
    ensures second == None
  {
    var m := new LocationManager(AuthorizedWhenInUse);
    var a := m.CurrentLocation();
    m.LocationsDelivered([here]);
    var b := m.CurrentLocation();
    m.TimeoutTaskFinishes(0);
    first, second := OutcomeOf(m, 0), OutcomeOf(m, 1);
  }
}
