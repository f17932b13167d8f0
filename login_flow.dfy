/** A login answered by the users service, routed by the application shell and then checked by
    the operator service's gate: the page a user lands on agrees with what the gate lets through. */
module LoginFlow {
  import opened Common
  import opened Api
  import Bcrypt
  import Jwt
  import Store
  import Client
  import AppSession
  import UsersService
  import OperatorService

  /** After a successful `/login` the shell sends an operator to `/operator` exactly when the
      token it was handed, sent back as `Bearer <token>`, passes `verifyOperator`; everyone else
      lands on `/profile`. */
  lemma LandingMatchesOperatorGate(users: seq<Store.User>, email: string, password: string,
                                   hasher: Bcrypt.Hasher, signer: Jwt.Signer)
    requires Jwt.Sound(signer)
    ensures var r := UsersService.Login(users, UsersService.LoginRequest(Some(email), Some(password)), hasher, signer, false);
            r.status == 200 ==>
              && r.body.LoggedIn?
              && var path := AppSession.LandingPath(r.body.user.role);
                 var gate := OperatorService.VerifyOperator(Some(Client.BearerHeader(Some(r.body.token))), signer);
                 (path == "/operator" <==> gate.Operator?)
                 && (path != "/operator" ==> path == "/profile")
                 && (gate.Operator? ==> gate.claims.id == r.body.user.id)
  {
    var r := UsersService.Login(users, UsersService.LoginRequest(Some(email), Some(password)), hasher, signer, false);
    if r.status == 200 {
      var u :| u in users && u.email == email
               && r.body == UsersService.LoggedIn(UsersService.LoggedInMessage,
                                                  signer.sign(Jwt.Payload(u.id, u.role, u.id), Jwt.ExpiresIn),
                                                  SessionUser(u.id, u.role));
      OperatorService.IssuedTokenAtOperatorGate(signer, Jwt.Payload(u.id, u.role, u.id));
    }
  }
}
