/** The access policy of the three API endpoints. Each viewset lists the
    same permission classes; a request goes through only when every class
    in the list grants it, and the first class that refuses names the
    reason. The app's own IsAdminOrReadOnly (myapp/permissions.py) is not
    part of this model: its decision is a parameter, any function of user
    and method. */
module Views {

  /** The requesting user; staff is the administrator flag. An anonymous
      user is neither authenticated nor staff. */
  datatype User = Anonymous | Account(isStaff: bool)

  datatype Method = Get | Head | Options | Post | Put | Patch | Delete

  datatype Permission = IsAuthenticated | IsAdminOrReadOnly | IsAdminUser

  datatype ViewSet = ProductViewSet | CustomerViewSet | OrderViewSet

  datatype Decision = Allow | Deny(failed: Permission)

  /** The decision of IsAdminOrReadOnly, which this model leaves open. */
  type AdminOrReadOnly = (User, Method) -> bool

  function HasPermission(p: Permission, adminOrReadOnly: AdminOrReadOnly, u: User, m: Method): bool
  {
    match p
    case IsAuthenticated => u.Account?
    case IsAdminOrReadOnly => adminOrReadOnly(u, m)
    case IsAdminUser => u.Account? && u.isStaff
  }

  /** The permission classes of each viewset. */
  function PermissionClasses(v: ViewSet): seq<Permission>
  {
    match v
    case ProductViewSet => [IsAuthenticated, IsAdminOrReadOnly, IsAdminUser]
    case CustomerViewSet => [IsAuthenticated, IsAdminOrReadOnly, IsAdminUser]
    case OrderViewSet => [IsAuthenticated, IsAdminOrReadOnly, IsAdminUser]
  }

  /** Check the classes in order and stop at the first that refuses. The
      request is allowed exactly when every class grants it; a denial names
      a class that refused, and every class before it granted. */
  function CheckPermissions(ps: seq<Permission>, adminOrReadOnly: AdminOrReadOnly, u: User, m: Method): (d: Decision)
    ensures d == Allow <==> forall i :: 0 <= i < |ps| ==> HasPermission(ps[i], adminOrReadOnly, u, m)
    ensures d.Deny? ==> exists k :: 0 <= k < |ps| && ps[k] == d.failed
                          && !HasPermission(ps[k], adminOrReadOnly, u, m)
                          && forall i :: 0 <= i < k ==> HasPermission(ps[i], adminOrReadOnly, u, m)
  {
    if ps == [] then Allow
    else if !HasPermission(ps[0], adminOrReadOnly, u, m) then Deny(ps[0])
    else
      var d := CheckPermissions(ps[1..], adminOrReadOnly, u, m);
      assert forall i :: 1 <= i < |ps| ==> ps[i] == ps[1..][i - 1];
      if d.Deny? then
        var k :| 0 <= k < |ps[1..]| && ps[1..][k] == d.failed
                 && !HasPermission(ps[1..][k], adminOrReadOnly, u, m)
                 && forall i :: 0 <= i < k ==> HasPermission(ps[1..][i], adminOrReadOnly, u, m);
        assert ps[k + 1] == d.failed;
        d
      else
        d
  }

  /** The decision for a request to one of the viewsets. */
  function Decide(v: ViewSet, adminOrReadOnly: AdminOrReadOnly, u: User, m: Method): Decision
  {
    CheckPermissions(PermissionClasses(v), adminOrReadOnly, u, m)
  }

  /** Allowed exactly when the user is authenticated, the opaque check
      grants the request and the user is staff. */
  lemma DecideIff(v: ViewSet, adminOrReadOnly: AdminOrReadOnly, u: User, m: Method)
    ensures Decide(v, adminOrReadOnly, u, m) == Allow
        <==> u.Account? && adminOrReadOnly(u, m) && u.isStaff
  {
    var ps := PermissionClasses(v);
    assert ps[0] == IsAuthenticated && ps[1] == IsAdminOrReadOnly && ps[2] == IsAdminUser;
  }

  /** Every allowed request comes from an authenticated staff user, for every
      method and whatever IsAdminOrReadOnly decides. */
  lemma AllowedOnlyForStaff(v: ViewSet, adminOrReadOnly: AdminOrReadOnly, u: User, m: Method)
    requires Decide(v, adminOrReadOnly, u, m) == Allow
    ensures u.Account?
    ensures u.isStaff
  {
    DecideIff(v, adminOrReadOnly, u, m);
  }

  /** An anonymous request is refused by the first class; an authenticated
      non-staff one by a later class; for any method. */
  lemma DenialReason(v: ViewSet, adminOrReadOnly: AdminOrReadOnly, u: User, m: Method)
    ensures u.Anonymous? ==> Decide(v, adminOrReadOnly, u, m) == Deny(IsAuthenticated)
    ensures u.Account? && !u.isStaff ==>
      Decide(v, adminOrReadOnly, u, m) == Deny(if adminOrReadOnly(u, m) then IsAdminUser else IsAdminOrReadOnly)
  {
    var ps := PermissionClasses(v);
    assert ps == [IsAuthenticated, IsAdminOrReadOnly, IsAdminUser];
    assert ps[1..] == [IsAdminOrReadOnly, IsAdminUser];
    assert ps[1..][1..] == [IsAdminUser];
    assert ps[1..][1..][1..] == [];
    if u.Account? && !u.isStaff {
      assert CheckPermissions(ps[1..][1..], adminOrReadOnly, u, m) == Deny(IsAdminUser);
      if adminOrReadOnly(u, m) {
        assert CheckPermissions(ps[1..], adminOrReadOnly, u, m) == Deny(IsAdminUser);
      } else {
        assert CheckPermissions(ps[1..], adminOrReadOnly, u, m) == Deny(IsAdminOrReadOnly);
      }
    }
  }

  /** Whether a request is allowed does not depend on the order in which the
      classes are listed, only on which classes there are. */
  lemma {:induction false} AllowIndependentOfOrder(ps: seq<Permission>, qs: seq<Permission>,
                                                   adminOrReadOnly: AdminOrReadOnly, u: User, m: Method)
    requires multiset(ps) == multiset(qs)
    ensures CheckPermissions(ps, adminOrReadOnly, u, m) == Allow <==> CheckPermissions(qs, adminOrReadOnly, u, m) == Allow
  {
    forall i | 0 <= i < |ps| ensures ps[i] in qs {
      assert ps[i] in multiset(ps);
    }
    forall i | 0 <= i < |qs| ensures qs[i] in ps {
      assert qs[i] in multiset(qs);
    }
  }

  /** The three endpoints give the same decision on every request. */
  lemma SamePolicyEverywhere(adminOrReadOnly: AdminOrReadOnly, u: User, m: Method)
    ensures Decide(ProductViewSet, adminOrReadOnly, u, m) == Decide(CustomerViewSet, adminOrReadOnly, u, m)
    ensures Decide(CustomerViewSet, adminOrReadOnly, u, m) == Decide(OrderViewSet, adminOrReadOnly, u, m)
  {
  }

  /** The product API cases of the test suite: a regular user's list, create
      and delete are refused; an administrator's are allowed whenever
      IsAdminOrReadOnly admits administrators. */
  lemma ProductApiExamples(adminOrReadOnly: AdminOrReadOnly)
    ensures Decide(ProductViewSet, adminOrReadOnly, Account(false), Get).Deny?
    ensures Decide(ProductViewSet, adminOrReadOnly, Account(false), Post).Deny?
    ensures Decide(ProductViewSet, adminOrReadOnly, Account(false), Delete).Deny?
    ensures (forall m :: adminOrReadOnly(Account(true), m)) ==>
      && Decide(ProductViewSet, adminOrReadOnly, Account(true), Get) == Allow
      && Decide(ProductViewSet, adminOrReadOnly, Account(true), Post) == Allow
      && Decide(ProductViewSet, adminOrReadOnly, Account(true), Delete) == Allow
  {
    DecideIff(ProductViewSet, adminOrReadOnly, Account(false), Get);
    DecideIff(ProductViewSet, adminOrReadOnly, Account(false), Post);
    DecideIff(ProductViewSet, adminOrReadOnly, Account(false), Delete);
    DecideIff(ProductViewSet, adminOrReadOnly, Account(true), Get);
    DecideIff(ProductViewSet, adminOrReadOnly, Account(true), Post);
    DecideIff(ProductViewSet, adminOrReadOnly, Account(true), Delete);
  }
}
