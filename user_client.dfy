/** BridgeUserClient: every operation checks first that the provider is signed in; saveProfile then
    checks that its profile is non-null; only then is exactly one call made to a resource caller. The provider's isSignedIn() is the signedIn argument and
    each delegate call is recorded; what a delegate returns is its answer argument. */
module UserClient {
  import opened Wrappers
  import opened Provider
  import ApiCalls

  const NotSignedIn: string := "Provider must be signed in to call this method."
  /** getSchema's message has two spaces before "method". */
  const NotSignedInSchema: string := "Provider must be signed in to call this  method."
  const NullProfile: string := "Profile cannot be null."

  datatype ClientError = IllegalState(message: string) | IllegalArgument(message: string)

  /** The delegate calls of UserProfileApiCaller and TrackerApiCaller, with the arguments passed. */
  datatype Call<P, T> = GetProfileCall | UpdateProfileCall(profile: P) | GetAllTrackersCall | GetSchemaCall(tracker: Option<T>)

  /** What an operation returns or throws, and the delegate calls it made. */
  datatype Reply<R, P, T> = Reply(result: Result<R, ClientError>, calls: seq<Call<P, T>>)

  /** Signed out: IllegalStateException and no call. Signed in: one call, whose result is returned. */
  function GetProfile<P, T>(signedIn: bool, answer: P): (o: Reply<P, P, T>)
    ensures o.result.Success? <==> signedIn
    ensures o.result.Success? ==> o.result.value == answer && o.calls == [GetProfileCall]
    ensures o.result.Failure? ==> o.result.error == IllegalState(NotSignedIn) && o.calls == []
  {
    if !signedIn then Reply(Failure(IllegalState(NotSignedIn)), [])
    else Reply(Success(answer), [GetProfileCall])
  }

  /** The sign-in check comes before the null check; updateProfile is called once, with the same profile,
      exactly when both pass. */
  function SaveProfile<P, T>(signedIn: bool, profile: Option<P>): (o: Reply<(), P, T>)
    ensures o.result.Success? <==> signedIn && profile.Some?
    ensures o.result.Success? ==> o.calls == [UpdateProfileCall(profile.value)]
    ensures o.result.Failure? ==> o.calls == []
    ensures !signedIn ==> o.result == Failure(IllegalState(NotSignedIn))
    ensures signedIn && profile.None? ==> o.result == Failure(IllegalArgument(NullProfile))
  {
    if !signedIn then Reply(Failure(IllegalState(NotSignedIn)), [])
    else if profile.None? then Reply(Failure(IllegalArgument(NullProfile)), [])
    else Reply(Success(()), [UpdateProfileCall(profile.value)])
  }

  /** Signed out: IllegalStateException and no call. Signed in: one call, whose result is returned. */
  function GetAllTrackers<P, T>(signedIn: bool, answer: seq<T>): (o: Reply<seq<T>, P, T>)
    ensures o.result.Success? <==> signedIn
    ensures o.result.Success? ==> o.result.value == answer && o.calls == [GetAllTrackersCall]
    ensures o.result.Failure? ==> o.result.error == IllegalState(NotSignedIn) && o.calls == []
  {
    if !signedIn then Reply(Failure(IllegalState(NotSignedIn)), [])
    else Reply(Success(answer), [GetAllTrackersCall])
  }

  /** As getAllTrackers; the tracker is passed on unchecked, null included. */
  function GetSchema<P, T>(signedIn: bool, tracker: Option<T>, answer: string): (o: Reply<string, P, T>)
    ensures o.result.Success? <==> signedIn
    ensures o.result.Success? ==> o.result.value == answer && o.calls == [GetSchemaCall(tracker)]
    ensures o.result.Failure? ==> o.result.error == IllegalState(NotSignedInSchema) && o.calls == []
  {
    if !signedIn then Reply(Failure(IllegalState(NotSignedInSchema)), [])
    else Reply(Success(answer), [GetSchemaCall(tracker)])
  }

  /** One public call on the facade, with its argument and what its delegate would return. */
  datatype Op<P, T> =
    | GetProfileOp(profileAnswer: P)
    | SaveProfileOp(profile: Option<P>)
    | GetAllTrackersOp(trackersAnswer: seq<T>)
    | GetSchemaOp(tracker: Option<T>, schemaAnswer: string)

  /** The delegate calls one operation makes. */
  function CallsOf<P, T>(signedIn: bool, op: Op<P, T>): seq<Call<P, T>> {
    match op
    case GetProfileOp(a) => GetProfile<P, T>(signedIn, a).calls
    case SaveProfileOp(p) => SaveProfile<P, T>(signedIn, p).calls
    case GetAllTrackersOp(a) => GetAllTrackers<P, T>(signedIn, a).calls
    case GetSchemaOp(t, a) => GetSchema<P, T>(signedIn, t, a).calls
  }

  /** An operation reaches its delegate only when the provider is signed in and the argument passes its check. */
  predicate Admitted<P, T>(signedIn: bool, op: Op<P, T>) {
    signedIn && !(op.SaveProfileOp? && op.profile.None?)
  }

  /** One operation makes one delegate call if admitted and none otherwise. */
  lemma CallsOfAdmitted<P, T>(signedIn: bool, op: Op<P, T>)
    ensures |CallsOf(signedIn, op)| == if Admitted(signedIn, op) then 1 else 0
  {
  }

  /** A session: each public call paired with what isSignedIn() answered at that moment. */
  function Run<P, T>(steps: seq<(bool, Op<P, T>)>): seq<Call<P, T>> {
    if steps == [] then [] else Run(steps[..|steps| - 1]) + CallsOf(steps[|steps| - 1].0, steps[|steps| - 1].1)
  }

  function AdmittedCount<P, T>(steps: seq<(bool, Op<P, T>)>): nat {
    if steps == [] then 0
    else AdmittedCount(steps[..|steps| - 1]) + (if Admitted(steps[|steps| - 1].0, steps[|steps| - 1].1) then 1 else 0)
  }

  /** Across a session the delegates are called exactly once per admitted operation. */
  lemma {:induction false} RunCallsOncePerAdmitted<P, T>(steps: seq<(bool, Op<P, T>)>)
    ensures |Run(steps)| == AdmittedCount(steps)
    decreases |steps|
  {
    if steps != [] {
      RunCallsOncePerAdmitted(steps[..|steps| - 1]);
      CallsOfAdmitted(steps[|steps| - 1].0, steps[|steps| - 1].1);
    }
  }

  /** While signed out, no delegate is ever called. */
  lemma {:induction false} SignedOutRunCallsNothing<P, T>(steps: seq<(bool, Op<P, T>)>)
    requires forall i :: 0 <= i < |steps| ==> !steps[i].0
    ensures Run(steps) == []
    decreases |steps|
  {
    if steps != [] {
      SignedOutRunCallsNothing(steps[..|steps| - 1]);
    }
  }

  /** The facade: one provider, shared with both resource callers. UserProfileApiCaller and
      TrackerApiCaller are BaseApiCaller subclasses whose own code is not part of this model. */
  class BridgeUserClient {
    const provider: ClientProvider
    const profileApi: ApiCalls.BaseApiCaller
    const trackerApi: ApiCalls.BaseApiCaller

    constructor (provider: ClientProvider)
      ensures this.provider == provider && profileApi.provider == provider && trackerApi.provider == provider
      ensures fresh(profileApi) && fresh(trackerApi)
    {
      this.provider := provider;
      profileApi := new ApiCalls.BaseApiCaller(provider);
      trackerApi := new ApiCalls.BaseApiCaller(provider);
    }

    ghost predicate Valid() {
      profileApi.provider == provider && trackerApi.provider == provider
    }

    /** getProvider: the provider both resource callers use. */
    function GetProvider(): (p: ClientProvider)
      requires Valid()
      ensures p == provider && p == profileApi.GetProvider() && p == trackerApi.GetProvider()
    {
      provider
    }
  }
}
