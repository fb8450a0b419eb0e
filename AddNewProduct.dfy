/**
 * The add-product screen (Pages/AddNewProductScreen.js): five form fields,
 * a busy flag, the name guard, the product draft it hands to the store's
 * `addProduct`, and the "Add Another" reset.
 */
module AddNewProduct {
  import opened Common
  import Text
  import ProductContext

  const Categories: seq<string> := ["Spices", "Herbs", "Seeds", "Powders", "Whole Spices", "Blends", "Other"]
  const DefaultCategory := "Spices"
  const AddFailed := "Failed to add product. Please try again."

  /** `newProduct`: name, description and price trimmed, the category as chosen, and `{ uri }` for a picked image or null. */
  function DraftOf(name: string, description: string, price: string, category: string, image: Option<string>): ProductContext.Draft
  {
    ProductContext.Draft(
      Text.Trim(name), Text.Trim(description), Text.Trim(price), category,
      if Truthy(image) then ImageObject(image.value) else NoImage)
  }

  /**
   * The draft's texts carry no surrounding whitespace and its name is not
   * empty once the guard has passed; the category is passed through; the
   * image is an object exactly when one was picked.
   */
  lemma DraftOfSpec(name: string, description: string, price: string, category: string, image: Option<string>)
    ensures var d := DraftOf(name, description, price, category, image);
      && d.name == Text.Trim(name) && d.description == Text.Trim(description) && d.price == Text.Trim(price)
      && Text.Trim(d.name) == d.name && Text.Trim(d.description) == d.description && Text.Trim(d.price) == d.price
      && d.category == category
      && (d.image.ImageObject? <==> Truthy(image))
      && (Truthy(image) ==> d.image.uri == image.value)
      && (!Text.AllSpace(name) ==> d.name != "")
  {
    Text.TrimIdempotent(name);
    Text.TrimIdempotent(description);
    Text.TrimIdempotent(price);
    Text.TrimEmptyIff(name);
  }

  /** The alert `handleAddProduct` ends with. */
  datatype AddAlert = NameMissing | AddSucceeded | AddError(message: string)

  class AddProductScreen {
    var productName: string
    var description: string
    var price: string
    var category: string
    /** The picked image's URI, or null. */
    var image: Option<string>
    var isLoading: bool
    /** Every value `isLoading` has been set to, oldest first. */
    ghost var loadingTrace: seq<bool>

    ghost predicate Valid()
      reads this
    {
      category in Categories
    }

    constructor ()
      ensures Valid()
      ensures productName == "" && description == "" && price == "" && category == DefaultCategory && image == None
      ensures !isLoading && loadingTrace == []
    {
      productName := "";
      description := "";
      price := "";
      category := DefaultCategory;
      image := None;
      isLoading := false;
      loadingTrace := [];
    }

    /** `setCategory(cat)` from one of the category chips. */
    method SelectCategory(cat: string)
      requires Valid() && cat in Categories
      modifies this`category
      ensures Valid() && category == cat
    {
      category := cat;
    }

    /** The "Add Another" button: every field back to its starting value. */
    method AddAnother()
      requires Valid()
      modifies this`productName, this`description, this`price, this`category, this`image
      ensures Valid()
      ensures productName == "" && description == "" && price == "" && category == DefaultCategory && image == None
    {
      productName := "";
      description := "";
      price := "";
      category := DefaultCategory;
      image := None;
    }

    /**
     * `handleAddProduct()` with the store's `addProduct` settling on `reply`.
     * A blank name stops at the alert: no draft, no busy flag, no store
     * change. Otherwise the flag is raised, the draft is handed to the store,
     * and the flag is lowered whatever happens. The store swallows server
     * failures, so only its authentication rejection reaches this screen's
     * error alert.
     */
    method HandleAddProduct(store: ProductContext.Store, reply: Reply<ProductContext.Product>)
      returns (draft: Option<ProductContext.Draft>, alert: AddAlert)
      requires Valid()
      modifies this`isLoading, this`loadingTrace, store`products
      ensures Valid()
      ensures Text.Trim(old(productName)) == "" ==>
        && draft == None && alert == NameMissing
        && isLoading == old(isLoading) && loadingTrace == old(loadingTrace) && store.products == old(store.products)
      ensures Text.Trim(old(productName)) != "" ==>
        && draft == Some(DraftOf(productName, description, price, category, image))
        && !isLoading && loadingTrace == old(loadingTrace) + [true, false]
      ensures Text.Trim(old(productName)) != "" && (!Truthy(store.authToken) || store.currentUser.None?) ==>
        alert == AddError(ProductContext.AuthRequired) && store.products == old(store.products)
      ensures Text.Trim(old(productName)) != "" && Truthy(store.authToken) && store.currentUser.Some? ==>
        && alert == AddSucceeded
        && store.products == (if reply.Ok? then old(store.products) + [reply.body] else old(store.products))
    {
      if Text.Trim(productName) == "" {
        return None, NameMissing;
      }
      isLoading := true;
      loadingTrace := loadingTrace + [true];
      var newProduct := DraftOf(productName, description, price, category, image);
      draft := Some(newProduct);
      var sent, result := store.AddProduct(newProduct, reply);
      match result {
        case Resolved(_) =>
          alert := AddSucceeded;
        case Rejected(message) =>
          alert := AddError(if message != "" then message else AddFailed);
      }
      if !Truthy(store.authToken) || store.currentUser.None? {
        assert result == Rejected(ProductContext.AuthRequired);
        assert ProductContext.AuthRequired != "";
      } else {
        assert result.Resolved?;
      }
      isLoading := false;
      loadingTrace := loadingTrace + [false];
    }
  }
}
