/**
 * The role gate of mern-exercise-tracker/backend/middleware/roleMiddleware.js:
 * `allowRoles(...roles)` builds a middleware that answers 401 without a
 * user, 403 when the user's role is not listed, and otherwise passes the
 * request on.
 */
module RoleMiddleware {
  import opened Wrappers
  import opened Text

  /** The part of `req.user` the gate reads. */
  datatype RequestUser = RequestUser(role: Option<string>)

  /** What the middleware does with the request. */
  datatype Outcome = Unauthorized(code: int, message: string) | Refused(code: int, message: string) | Next

  /** `roles.join(sep)`. */
  function Join(roles: seq<string>, sep: string): string {
    if roles == [] then ""
    else if |roles| == 1 then roles[0]
    else roles[0] + sep + Join(roles[1..], sep)
  }

  /** Every role listed appears in the joined text. */
  lemma {:induction false} JoinMentions(roles: seq<string>, sep: string, i: nat)
    requires i < |roles|
    ensures Contains(Join(roles, sep), roles[i])
  {
    var joined := Join(roles, sep);
    if |roles| == 1 {
      assert OccursAt(joined, roles[0], 0);
    } else if i == 0 {
      assert joined[0..|roles[0]|] == roles[0];
      assert OccursAt(joined, roles[0], 0);
    } else {
      JoinMentions(roles[1..], sep, i - 1);
      var rest := Join(roles[1..], sep);
      ContainsIffOccurs(rest, roles[i]);
      var k :| OccursAt(rest, roles[i], k);
      var offset := |roles[0] + sep|;
      assert joined == roles[0] + sep + rest;
      assert joined[offset + k..offset + k + |roles[i]|] == rest[k..k + |roles[i]|];
      assert OccursAt(joined, roles[i], offset + k);
    }
    ContainsIffOccurs(joined, roles[i]);
  }

  const UnauthorizedMessage := "Unauthorized: No user data found"
  const ForbiddenPrefix := "Forbidden: You are not authorized for this action. Required role(s): "

  /** The middleware built by `allowRoles(...roles)`, on a request whose
      `req.user` is `user`. */
  function AllowRoles(roles: seq<string>, user: Option<RequestUser>): (o: Outcome)
    ensures o.Unauthorized? <==> user.None?
    ensures o.Next? <==> user.Some? && user.value.role.Some? && user.value.role.value in roles
    ensures o.Unauthorized? ==> o.code == 401
    ensures o.Refused? ==> o.code == 403 && o.message == ForbiddenPrefix + Join(roles, ", ")
  {
    if user.None? then Unauthorized(401, UnauthorizedMessage)
    else if !(user.value.role.Some? && user.value.role.value in roles) then
      Refused(403, ForbiddenPrefix + Join(roles, ", "))
    else Next
  }

  /** A refusal names every allowed role. */
  lemma RefusalNamesRoles(roles: seq<string>, user: Option<RequestUser>, i: nat)
    requires i < |roles| && AllowRoles(roles, user).Refused?
    ensures Contains(AllowRoles(roles, user).message, roles[i])
  {
    var joined := Join(roles, ", ");
    JoinMentions(roles, ", ", i);
    ContainsIffOccurs(joined, roles[i]);
    var k :| OccursAt(joined, roles[i], k);
    var m := ForbiddenPrefix + joined;
    assert m[|ForbiddenPrefix| + k..|ForbiddenPrefix| + k + |roles[i]|] == joined[k..k + |roles[i]|];
    assert OccursAt(m, roles[i], |ForbiddenPrefix| + k);
    ContainsIffOccurs(m, roles[i]);
  }

  /** With no roles allowed, every signed-in user is refused. */
  lemma NoRolesRefusesAll(user: RequestUser)
    ensures AllowRoles([], Some(user)).Refused?
  {
  }
}
