/** The password hasher (bcrypt through passlib) as the service sees it: a
    salted one-way hash and a verifier. Its internals are not modelled; the
    hasher is a parameter and the laws it obeys are predicates that the
    lemmas needing them require. */
module Hashing {

  /** The random salt bcrypt draws on every call; drawing it is the caller's
      business, so hashing is a function of password and salt. */
  type Salt = nat

  datatype Hasher = Hasher(hash: (string, Salt) -> string, verify: (string, string) -> bool)

  /** Every password verifies against any hash made from it. */
  ghost predicate Sound(h: Hasher)
  {
    forall password, salt :: h.verify(password, h.hash(password, salt))
  }

  /** Only the hashed password verifies. bcrypt itself compares at most the
      first 72 bytes, so this is an idealisation used only where stated. */
  ghost predicate Binding(h: Hasher)
  {
    forall guess, password, salt :: h.verify(guess, h.hash(password, salt)) ==> guess == password
  }
}
