/** bcryptjs as the users service uses it: a salted one-way hash and a comparison that
    accepts a password against a hash made from it. The algorithm itself is a parameter. */
module Bcrypt {

  /** The cost factor passed to `bcrypt.genSalt`. */
  const SaltRounds: nat := 10

  /** A salt: its cost factor and the random bytes `genSalt` draws. */
  datatype Salt = Salt(rounds: nat, random: string)

  type Digest = string

  datatype Hasher = Hasher(hash: (string, Salt) -> Digest, compare: (string, Digest) -> bool)

  /** The one property the service relies on: `compare(p, hash(p, s))` holds. */
  ghost predicate Sound(h: Hasher) {
    forall p: string, s: Salt :: h.compare(p, h.hash(p, s))
  }
}

/** jsonwebtoken as the services use it, with the process-wide JWT_SECRET and the clock folded
    into `sign` and `verify`. */
module Jwt {
  import opened Common

  /** The claims `/login` signs. */
  datatype Payload = Payload(id: int, role: string, userId: int)

  /** `expiresIn: '1h'`, in seconds. */
  const ExpiresIn: nat := 3600

  datatype Signer = Signer(sign: (Payload, nat) -> string, verify: string -> Option<Payload>)

  /** What a correct signer guarantees: a token it issued verifies to its claims (while unexpired;
      the clock is inside `verify`), a token holds no space, and the empty string never verifies. */
  ghost predicate Sound(j: Signer) {
    && (forall p: Payload, e: nat :: j.verify(j.sign(p, e)) == Some(p))
    && (forall p: Payload, e: nat :: ' ' !in j.sign(p, e))
    && j.verify("") == None
  }
}

/** Values that travel between the browser and the services. */
module Api {
  import opened Common

  /** The `user` object of a `/login` response and of the browser's session. */
  datatype SessionUser = SessionUser(id: int, role: string)

  /** The body of `POST /companies/:id/support-survey`; None is a JSON null or a missing field. */
  datatype SurveyPayload = SurveyPayload(
    isAware: Option<bool>,
    mainInterest: Option<seq<string>>,
    startupPlans: Option<string>,
    attractingSpecialists: Option<bool>,
    usedFederal: Option<seq<string>>,
    usedRegional: Option<seq<string>>)
}
