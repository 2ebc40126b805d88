/** The permission verifier algebra the mapper combines verdicts with. Its meaning is outside
    this model, so the combinators are kept as uninterpreted constructors: the shape of a
    combined verdict records exactly which verdicts were combined, in which order and how. */
module Permissions {

  datatype PermissionVerifier =
    | Leaf(id: nat)
    | And(left: PermissionVerifier, right: PermissionVerifier)
    | Or(left: PermissionVerifier, right: PermissionVerifier)
    | Xor(left: PermissionVerifier, right: PermissionVerifier)
    | Unless(left: PermissionVerifier, right: PermissionVerifier)
    /** PermissionVerifier.NONE, the verdict that grants nothing */
    | None
}
