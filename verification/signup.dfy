/** The sign-up form's submit handler.  What the handler does to the outside
    world (the loading flag, the call into the session provider, toasts and
    navigation) is recorded, in order, as a sequence of effects; the
    function `SubmitEffects` says which sequence each submission produces. */
module Signup {
  import opened Values
  import opened Api
  import opened Auth

  datatype Effect =
    | SetLoading(on: bool)
    | CallSignup(email: string, password: string, name: string)
    | Toast(title: string, description: string, destructive: bool)
    | Navigate(path: string)

  const MinPasswordLength := 6
  const DashboardPath := "/dashboard"
  const GenericFailure := "Something went wrong. Please try again."

  /** The effects of one submission, given what the provider's `signup`
      resolves to (ignored when the password is rejected locally). */
  function SubmitEffects(email: string, password: string, name: string, result: AuthResult): (r: seq<Effect>)
    ensures CallSignup(email, password, name) in r <==> |password| >= MinPasswordLength
    ensures forall e :: e in r && e.CallSignup? ==> e == CallSignup(email, password, name)
  {
    if |password| < MinPasswordLength then
      [Toast("Password too short", "Password must be at least 6 characters.", true)]
    else
      var outcome :=
        if result.success then
          [Toast("Account created!", "Welcome to FaceShot-ChopShop.", false), Navigate(DashboardPath)]
        else
          [Toast("Signup failed", OrElse(result.error, GenericFailure), true)];
      [SetLoading(true), CallSignup(email, password, name)] + outcome + [SetLoading(false)]
  }

  /** A password shorter than six characters is refused before any call:
      no signup, no loading flag, no navigation. */
  lemma ShortPasswordRejected(email: string, password: string, name: string, result: AuthResult)
    requires |password| < 6
    ensures forall e :: e in SubmitEffects(email, password, name, result) ==>
              !e.CallSignup? && !e.SetLoading? && !e.Navigate?
  {
  }

  /** Otherwise loading is switched on first, then signup is called with the
      form's fields, and loading is switched off last whatever the outcome. */
  lemma LoadingAroundCall(email: string, password: string, name: string, result: AuthResult)
    requires |password| >= 6
    ensures var effects := SubmitEffects(email, password, name, result);
            |effects| >= 4 &&
            effects[0] == SetLoading(true) &&
            effects[1] == CallSignup(email, password, name) &&
            effects[|effects| - 1] == SetLoading(false) &&
            forall i :: 1 < i < |effects| - 1 ==> !effects[i].SetLoading? && !effects[i].CallSignup?
  {
  }

  /** The handler navigates, and only to the dashboard, exactly when the
      password passed the gate and signup succeeded. */
  lemma NavigatesOnlyOnSuccess(email: string, password: string, name: string, result: AuthResult)
    ensures var effects := SubmitEffects(email, password, name, result);
            (Navigate("/dashboard") in effects <==> |password| >= 6 && result.success) &&
            forall e :: e in effects && e.Navigate? ==> e.path == "/dashboard"
  {
  }

  /** A failed signup shows the provider's error when it has one and the
      generic text otherwise. */
  lemma FailureMessage(email: string, password: string, name: string, result: AuthResult)
    requires |password| >= 6 && !result.success
    ensures var shown := if Present(result.error) then result.error.value
                         else "Something went wrong. Please try again.";
            Toast("Signup failed", shown, true) in SubmitEffects(email, password, name, result)
  {
  }

  class SignupForm {
    const auth: AuthProvider
    var name: string
    var email: string
    var password: string
    var isLoading: bool

    constructor (auth: AuthProvider)
      ensures this.auth == auth
      ensures name == "" && email == "" && password == "" && !isLoading
    {
      this.auth := auth;
      name, email, password := "", "", "";
      isLoading := false;
    }

    /** `handleSubmit`; `fetched` is what the registration request produces
        if it is issued, and `sent` is that request.  The loading effects are
        read off the `isLoading` cell and the signup effect off the request
        the client sends. */
    method HandleSubmit(fetched: FetchOutcome<AuthBody>) returns (sent: Option<HttpRequest>, effects: seq<Effect>)
      modifies this, auth, auth.api
      ensures name == old(name) && email == old(email) && password == old(password)
      ensures sent.Some? <==> |password| >= MinPasswordLength
      ensures sent.Some? ==>
                sent.value == HttpRequest(Post, auth.api.baseUrl + RegisterEndpoint, RequestHeaders(old(auth.api.token)),
                                          SignupBody(SignupPayload(email, password, Some(name))))
      ensures effects == SubmitEffects(email, password, name, AuthOutcome(Normalise(fetched)))
      ensures |password| < 6 ==> isLoading == old(isLoading) && auth.State() == old(auth.State())
      ensures |password| >= 6 ==> !isLoading && auth.State() == AuthStep(old(auth.State()), fetched)
    {
      if |password| < MinPasswordLength {
        effects := [Toast("Password too short", "Password must be at least 6 characters.", true)];
        return None, effects;
      }
      isLoading := true;
      effects := [SetLoading(isLoading)];
      var request, result := auth.Signup(email, password, Some(name), fetched);
      var payload := request.body.signup;
      effects := effects + [CallSignup(payload.email, payload.password, OrElse(payload.name, ""))];
      if result.success {
        effects := effects + [Toast("Account created!", "Welcome to FaceShot-ChopShop.", false), Navigate(DashboardPath)];
      } else {
        effects := effects + [Toast("Signup failed", OrElse(result.error, GenericFailure), true)];
      }
      isLoading := false;
      effects := effects + [SetLoading(isLoading)];
      sent := Some(request);
    }
  }
}
