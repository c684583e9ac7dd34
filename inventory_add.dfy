/** The "add inventory item" form: its checks, the optional photo upload, and the new record. */
module InventoryAdd {
  import opened Options
  import opened Text
  import opened Records
  import opened Backend

  /** The first failed check, in the order the form makes them, or `Accepted`. */
  datatype AddResult = MissingField | BadStock | BadPrice | NotSignedIn | UploadError | Accepted

  /** What became of the photo: none was picked, it uploaded to a URL, or the upload failed. */
  datatype Photo = NoImage | Uploaded(url: string) | UploadFailed

  /** `handleAdd`'s checks before any write; the first failure wins. */
  function AddGuard(name: string, stock: string, price: string, sellable: bool, user: Option<string>): (r: AddResult)
    ensures r == MissingField <==> IsBlank(name) || IsBlank(stock)
    ensures r == BadStock <==> (!IsBlank(name) && !IsBlank(stock) &&
      (ParseIntPrefix(stock).None? || ParseIntPrefix(stock).value < 0))
    ensures r == BadPrice <==> (!IsBlank(name) && !IsBlank(stock) &&
      ParseIntPrefix(stock).Some? && ParseIntPrefix(stock).value >= 0 &&
      sellable && (IsBlank(price) || ToNumber(price).None?))
    ensures r == NotSignedIn <==> (!IsBlank(name) && !IsBlank(stock) &&
      ParseIntPrefix(stock).Some? && ParseIntPrefix(stock).value >= 0 &&
      (!sellable || (!IsBlank(price) && ToNumber(price).Some?)) && user.None?)
    ensures r == Accepted <==> (!IsBlank(name) && !IsBlank(stock) &&
      ParseIntPrefix(stock).Some? && ParseIntPrefix(stock).value >= 0 &&
      (!sellable || (!IsBlank(price) && ToNumber(price).Some?)) && user.Some?)
    ensures r != UploadError
  {
    if IsBlank(name) || IsBlank(stock) then MissingField
    else if ParseIntPrefix(stock).None? || ParseIntPrefix(stock).value < 0 then BadStock
    else if sellable && (IsBlank(price) || ToNumber(price).None?) then BadPrice
    else if user.None? then NotSignedIn
    else Accepted
  }

  /**
   * The stored item: trimmed name, parsed stock, the owner, the photo URL if one was uploaded,
   * and `parseFloat(price)` for a sellable item or 0 otherwise.
   */
  function NewItem(name: string, stock: string, price: string, sellable: bool, photo: Photo, uid: string): (d: InventoryDoc)
    requires AddGuard(name, stock, price, sellable, Some(uid)) == Accepted
    ensures d.name == Trim(name) && d.ownerId == uid && d.isSellable == sellable
    ensures Some(d.stock) == ParseIntPrefix(stock) && d.stock >= 0
    ensures d.photoUrl.None? <==> !photo.Uploaded?
    ensures sellable ==> Some(d.price) == ToNumber(price)
    ensures !sellable ==> d.price == 0
  {
    var p := if sellable then (ToNumberThenParseInt(price, ToNumber(price).value); ParseIntPrefix(price).value) else 0;
    InventoryDoc(Trim(name), ParseIntPrefix(stock).value, uid, if photo.Uploaded? then Some(photo.url) else None, sellable, p)
  }

  class InventoryAddForm {
    var name: string
    var stock: string
    var price: string
    var isSellable: bool
    var loading: bool

    constructor()
      ensures name == "" && stock == "" && price == "" && !isSellable && !loading
    {
      name, stock, price, isSellable, loading := "", "", "", false, false;
    }

    /**
     * `handleAdd`: a failed check writes nothing; otherwise the photo comes first, and a failed
     * upload writes nothing either. The loading flag is down at the end; while it is up the
     * button is disabled.
     */
    method Add(store: Store, user: Option<string>, photo: Photo, id: string) returns (r: AddResult)
      requires !loading
      modifies store, this`loading
      ensures AddGuard(name, stock, price, isSellable, user) != Accepted ==> r == AddGuard(name, stock, price, isSellable, user)
      ensures AddGuard(name, stock, price, isSellable, user) == Accepted ==> (r == UploadError <==> photo == UploadFailed)
      ensures r == (if AddGuard(name, stock, price, isSellable, user) != Accepted then AddGuard(name, stock, price, isSellable, user)
                    else if photo == UploadFailed then UploadError else Accepted)
      ensures r != Accepted ==> store.Snapshot() == old(store.Snapshot())
      ensures r == Accepted ==> (AddGuard(name, stock, price, isSellable, user) == Accepted &&
        store.Snapshot() == PutInventory(old(store.Snapshot()), id, NewItem(name, stock, price, isSellable, photo, user.value)))
      ensures !loading
    {
      r := AddGuard(name, stock, price, isSellable, user);
      if r != Accepted {
        return;
      }
      loading := true;
      if photo == UploadFailed {
        r := UploadError;
      } else {
        store.AddInventory(id, NewItem(name, stock, price, isSellable, photo, user.value));
      }
      loading := false;
    }
  }
}
