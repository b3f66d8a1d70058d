/**
 * The request pipeline in front of a handler: `protect` (seen here only
 * through its verdict), the `admin` gate that routes/orderRoutes.js and
 * routes/productRoutes.js each declare with the same text, and a chain of
 * such steps run in order until one of them answers the request.
 */
module Pipeline {
  import opened Wrappers
  import opened OrderModel

  /** The user record `protect` attaches to the request. */
  datatype User = User(id: UserId, role: string)

  /** The verdict of `protect` on a request's bearer token: the current user
      record, or a refusal with the message it answers 401 with. */
  datatype AuthResult = Verified(user: User) | Refused(message: string)

  datatype Step = Protect | Admin

  /** A step either calls `next` with the user now attached, or answers. */
  datatype StepResult = Next(user: Option<User>) | Halt(code: nat, message: string)

  /** A chain either reaches the handler with the attached user, or stops at
      step `at` with that step's answer. */
  datatype ChainResult = Reached(user: Option<User>) | Stopped(at: nat, code: nat, message: string)

  const AdminRole := "admin"
  const AdminOnly := "Admin access only"

  predicate IsAdmin(user: Option<User>) {
    user.Some? && user.value.role == AdminRole
  }

  /** `admin`: call `next` iff a user is attached and its role is exactly
      "admin"; otherwise answer 403. The request is passed on as it came. */
  function AdminGate(user: Option<User>): (r: StepResult)
    ensures r.Next? <==> IsAdmin(user)
    ensures r.Next? ==> r.user == user
    ensures r.Halt? ==> r.code == 403 && r.message == AdminOnly
  {
    if user.Some? && user.value.role == AdminRole then Next(user) else Halt(403, AdminOnly)
  }

  /** `protect`: attach the verified user, or answer 401. */
  function ProtectGate(auth: AuthResult): (r: StepResult)
    ensures r.Next? <==> auth.Verified?
    ensures r.Next? ==> r.user == Some(auth.user)
    ensures r.Halt? ==> r.code == 401 && r.message == auth.message
  {
    match auth
    case Verified(u) => Next(Some(u))
    case Refused(m) => Halt(401, m)
  }

  function RunStep(step: Step, auth: AuthResult, attached: Option<User>): StepResult {
    match step
    case Protect => ProtectGate(auth)
    case Admin => AdminGate(attached)
  }

  /** The user attached after `prefix` has run, when it has run through. */
  function Attached(prefix: seq<Step>, auth: AuthResult, attached: Option<User>): Option<User> {
    if Protect in prefix && auth.Verified? then Some(auth.user) else attached
  }

  /** What a step demands of the user the handler finally sees. */
  predicate Satisfied(step: Step, auth: AuthResult, user: Option<User>) {
    match step
    case Protect => auth.Verified? && user == Some(auth.user)
    case Admin => IsAdmin(user)
  }

  /** Only `protect` attaches a user, and it attaches the verified one. */
  predicate Consistent(auth: AuthResult, attached: Option<User>) {
    attached.None? || (auth.Verified? && attached == Some(auth.user))
  }

  /** Run the steps in their declared order; the first that answers ends the
      request, and no later step runs. */
  function RunChain(chain: seq<Step>, auth: AuthResult, attached: Option<User>): (r: ChainResult)
    requires Consistent(auth, attached)
    ensures r.Reached? ==> r.user == Attached(chain, auth, attached)
    ensures r.Reached? ==> forall i :: 0 <= i < |chain| ==> Satisfied(chain[i], auth, r.user)
    ensures r.Stopped? ==>
              && r.at < |chain|
              && (forall j :: 0 <= j < r.at ==> RunStep(chain[j], auth, Attached(chain[..j], auth, attached)).Next?)
              && RunStep(chain[r.at], auth, Attached(chain[..r.at], auth, attached))
                 == Halt(r.code, r.message)
    decreases |chain|
  {
    if chain == [] then Reached(attached)
    else
      match RunStep(chain[0], auth, attached)
      case Halt(c, m) => Stopped(0, c, m)
      case Next(u) =>
        var rest := RunChain(chain[1..], auth, u);
        PrefixAttached(chain, auth, attached, u);
        match rest
        case Reached(u') => Reached(u')
        case Stopped(at, c, m) => Stopped(at + 1, c, m)
  }

  /** Running the first step and then a prefix of the rest is running a
      longer prefix of the whole chain. */
  lemma {:induction false} PrefixAttached(chain: seq<Step>, auth: AuthResult, attached: Option<User>, u: Option<User>)
    requires chain != [] && Consistent(auth, attached)
    requires RunStep(chain[0], auth, attached) == Next(u)
    ensures Consistent(auth, u)
    ensures forall j :: 0 <= j <= |chain| - 1 ==>
              Attached(chain[1..][..j], auth, u) == Attached(chain[..j + 1], auth, attached)
  {
    forall j | 0 <= j <= |chain| - 1
      ensures Attached(chain[1..][..j], auth, u) == Attached(chain[..j + 1], auth, attached)
    {
      assert chain[..j + 1] == [chain[0]] + chain[1..][..j];
    }
  }

  /** A chain run with nothing attached reaches the handler iff every step is
      satisfied by the user it ends with. */
  lemma {:induction false} ChainReachesIff(chain: seq<Step>, auth: AuthResult)
    requires forall i :: 0 <= i < |chain| ==> (chain[i] == Admin ==> Protect in chain[..i])
    ensures RunChain(chain, auth, None).Reached?
            <==> forall i :: 0 <= i < |chain| ==> Satisfied(chain[i], auth, Attached(chain, auth, None))
  {
    var r := RunChain(chain, auth, None);
    if r.Stopped? {
      var k := r.at;
      var before := chain[..k];
      if chain[k] == Admin {
        assert Protect in before;
        var j :| 0 <= j < k && before[j] == Protect;
        assert RunStep(chain[j], auth, Attached(chain[..j], auth, None)).Next?;
        assert Protect in chain by { assert chain[j] == Protect; }
        assert Attached(before, auth, None) == Attached(chain, auth, None);
      }
      assert !Satisfied(chain[k], auth, Attached(chain, auth, None));
    }
  }

  /** The three chains the route files declare. */
  lemma ChainsOfRouteFiles(auth: AuthResult)
    ensures RunChain([], auth, None) == Reached(None)
    ensures RunChain([Protect], auth, None)
            == if auth.Verified? then Reached(Some(auth.user)) else Stopped(0, 401, auth.message)
    ensures RunChain([Protect, Admin], auth, None)
            == if auth.Refused? then Stopped(0, 401, auth.message)
               else if auth.user.role == AdminRole then Reached(Some(auth.user))
               else Stopped(1, 403, AdminOnly)
  {
  }
}
