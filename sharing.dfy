/**
 * The sharing grants both workflow variants put on a newly created form.
 */
module Sharing {

  datatype Grantee = Anyone | User(email: string)

  datatype Role = Reader | Writer | Owner

  /**
   * A permission body as sent to Drive; `transferInBody` is the
   * 'transferOwnership' key some bodies carry inside themselves.
   */
  datatype Permission = Permission(grantee: Grantee, role: Role, transferInBody: bool)

  /** One `permissions().create` request: the body and its `transferOwnership` argument. */
  datatype PermissionCreate = PermissionCreate(body: Permission, transferOwnership: bool)

  /** The three grants, in the order they are batched. */
  function FormPermissions(email: string): (ps: seq<Permission>)
    ensures |ps| == 3
    ensures ps[0].grantee == Anyone && ps[0].role == Reader
    ensures ps[1].grantee == User(email) && ps[1].role == Owner
    ensures ps[2].grantee == User(email) && ps[2].role == Writer
  {
    [ Permission(Anyone, Reader, false),
      Permission(User(email), Owner, true),
      Permission(User(email), Writer, false) ]
  }

  /**
   * One create request per body, in order; the request asks for an
   * ownership transfer exactly when the body grants the owner role.
   */
  function CreateRequests(ps: seq<Permission>): (rs: seq<PermissionCreate>)
    ensures |rs| == |ps|
    ensures forall i :: 0 <= i < |ps| ==> rs[i].body == ps[i]
    ensures forall i :: 0 <= i < |rs| ==> (rs[i].transferOwnership <==> rs[i].body.role == Owner)
  {
    if ps == [] then [] else [PermissionCreate(ps[0], ps[0].role == Owner)] + CreateRequests(ps[1..])
  }

  /** The batch of grants sent for a new form. */
  function FormPermissionBatch(email: string): seq<PermissionCreate> {
    CreateRequests(FormPermissions(email))
  }

  /** The owner grant that `set_form_permissions` sends once more after the batch. */
  function OwnerRegrant(email: string): (r: PermissionCreate)
    ensures r.body.grantee == User(email) && r.body.role == Owner && r.transferOwnership
  {
    PermissionCreate(Permission(User(email), Owner, false), true)
  }

  /**
   * Anyone may read, the configured user is asked to take ownership and is
   * a writer, and only the owner grant asks for a transfer.
   */
  lemma FormPermissionBatchShape(email: string)
    ensures var b := FormPermissionBatch(email);
      |b| == 3
      && b[0].body.grantee == Anyone && b[0].body.role == Reader && !b[0].transferOwnership
      && b[1].body.grantee == User(email) && b[1].body.role == Owner && b[1].transferOwnership
      && b[2].body.grantee == User(email) && b[2].body.role == Writer && !b[2].transferOwnership
  {
  }
}
