/** The "add customer" form: required fields, the signed-in owner, and the new record. */
module CustomerAdd {
  import opened Options
  import opened Text
  import opened Records
  import opened Backend

  datatype AddResult = MissingField | NotSignedIn | Added

  /** `save`'s checks in order: a blank name or phone first, then the signed-in user. */
  function AddGuard(name: string, phone: string, user: Option<string>): (r: AddResult)
    ensures r == MissingField <==> IsBlank(name) || IsBlank(phone)
    ensures r == NotSignedIn <==> !IsBlank(name) && !IsBlank(phone) && user.None?
    ensures r == Added <==> !IsBlank(name) && !IsBlank(phone) && user.Some?
  {
    if IsBlank(name) || IsBlank(phone) then MissingField
    else if user.None? then NotSignedIn
    else Added
  }

  /** A new customer: the trimmed name and phone, no orders, not a member, an empty deposit, owned by the user. */
  function NewCustomer(name: string, phone: string, uid: string): (c: CustomerDoc)
    ensures c.name == Trim(name) && c.phone == Trim(phone) && c.ownerId == uid
    ensures c.totalOrders == 0 && c.isMember == Some(false) && c.depositBalance == Some(Some(0))
  {
    CustomerDoc(Trim(name), Trim(phone), 0, uid, Some(false), Some(Some(0)))
  }

  /** A customer created here starts with nothing to spend and no orders, and its name and phone are not blank. */
  lemma NewCustomerShape(name: string, phone: string, uid: string)
    requires AddGuard(name, phone, Some(uid)) == Added
    ensures NewCustomer(name, phone, uid).name != [] && NewCustomer(name, phone, uid).phone != []
    ensures NewCustomer(name, phone, uid).depositBalance.GetOr(Some(0)) == Some(0)
  {
  }

  class CustomerAddForm {
    var name: string
    var phone: string
    var loading: bool

    constructor()
      ensures name == "" && phone == "" && !loading
    {
      name, phone, loading := "", "", false;
    }

    /**
     * `save`: a rejected form writes nothing; an accepted one adds the new customer under
     * the generated id. The loading flag is down again afterwards in either case; while it is
     * up the button is disabled.
     */
    method Save(store: Store, user: Option<string>, id: string) returns (r: AddResult)
      requires !loading
      modifies store, this`loading
      ensures r == AddGuard(name, phone, user)
      ensures r != Added ==> store.Snapshot() == old(store.Snapshot())
      ensures r == Added ==> store.Snapshot() == PutCustomer(old(store.Snapshot()), id, NewCustomer(name, phone, user.value))
      ensures !loading
    {
      if IsBlank(name) || IsBlank(phone) {
        return MissingField;
      }
      if user.None? {
        return NotSignedIn;
      }
      loading := true;
      store.AddCustomer(id, NewCustomer(name, phone, user.value));
      loading := false;
      r := Added;
    }
  }
}
