/**
 * The product-name tag box of the buyer registration form
 * (Pages/Buyer/Registration/ProductTagInput.js): a text box and a list of
 * distinct names, with every new list passed to the parent through
 * `onProductsChange`.
 */
module ProductTagInput {
  import Text

  predicate NoDuplicates(s: seq<string>)
  {
    forall i, j :: 0 <= i < j < |s| ==> s[i] != s[j]
  }

  /** `products.filter((_, i) => i !== index)`, walking the list as `filter` does. */
  function DropIndex(s: seq<string>, index: int): seq<string>
    decreases |s|
  {
    if s == [] then []
    else (if index == 0 then [] else [s[0]]) + DropIndex(s[1..], index - 1)
  }

  /** Filtering by index removes exactly element `index` when it exists, and nothing otherwise. */
  lemma {:induction false} DropIndexSpec(s: seq<string>, index: int)
    ensures 0 <= index < |s| ==> DropIndex(s, index) == s[..index] + s[index + 1..]
    ensures !(0 <= index < |s|) ==> DropIndex(s, index) == s
  {
    if s != [] {
      DropIndexSpec(s[1..], index - 1);
      if index == 0 {
        assert s[index + 1..] == s[1..];
        if 1 < |s| {
          assert DropIndex(s[1..], -1) == s[1..];
        }
      } else if 0 < index < |s| {
        assert s[..index] == [s[0]] + s[1..][..index - 1];
        assert s[index + 1..] == s[1..][index..];
      } else {
        assert s == [s[0]] + s[1..];
      }
    }
  }

  /** The component's state: the text box and the tag list. */
  datatype TagState = TagState(text: string, products: seq<string>)

  /** `addProduct`: the trimmed text is appended and the box cleared, unless it is empty or already listed. */
  function AfterAdd(st: TagState): TagState
  {
    var t := Text.Trim(st.text);
    if t != "" && t !in st.products then TagState("", st.products + [t]) else st
  }

  /** `removeProduct(index)`. */
  function AfterRemove(st: TagState, index: int): TagState
  {
    TagState(st.text, DropIndex(st.products, index))
  }

  /** What the user can do: type into the box, press Add (or submit), or tap a tag's cancel icon. */
  datatype Action = Type(typed: string) | Add | Remove(index: int)

  function Step(st: TagState, a: Action): TagState
  {
    match a
    case Type(t) => TagState(t, st.products)
    case Add => AfterAdd(st)
    case Remove(i) => AfterRemove(st, i)
  }

  function Run(st: TagState, actions: seq<Action>): TagState
    decreases |actions|
  {
    if actions == [] then st else Run(Step(st, actions[0]), actions[1..])
  }

  /** Empty or whitespace-only text is ignored, and so is text whose trimmed form is already listed; otherwise it is appended. */
  lemma AddOutcome(st: TagState)
    ensures Text.AllSpace(st.text) ==> AfterAdd(st) == st
    ensures Text.Trim(st.text) in st.products ==> AfterAdd(st) == st
    ensures !Text.AllSpace(st.text) && Text.Trim(st.text) !in st.products ==>
      AfterAdd(st) == TagState("", st.products + [Text.Trim(st.text)])
    ensures AfterAdd(st) != st ==>
      && AfterAdd(st).products == st.products + [Text.Trim(st.text)]
      && |AfterAdd(st).products| == |st.products| + 1
      && AfterAdd(st).text == ""
  {
    Text.TrimEmptyIff(st.text);
  }

  lemma AddKeepsNoDuplicates(st: TagState)
    requires NoDuplicates(st.products)
    ensures NoDuplicates(AfterAdd(st).products)
  {
  }

  lemma RemoveKeepsNoDuplicates(st: TagState, index: int)
    requires NoDuplicates(st.products)
    ensures NoDuplicates(AfterRemove(st, index).products)
  {
    DropIndexSpec(st.products, index);
    var s := st.products;
    if 0 <= index < |s| {
      var r := s[..index] + s[index + 1..];
      forall i, j | 0 <= i < j < |r| ensures r[i] != r[j] {
        var i' := if i < index then i else i + 1;
        var j' := if j < index then j else j + 1;
        assert r[i] == s[i'] && r[j] == s[j'];
      }
    }
  }

  /** Any sequence of typing, adds and removes keeps a duplicate-free list duplicate-free. */
  lemma {:induction false} RunKeepsNoDuplicates(st: TagState, actions: seq<Action>)
    decreases |actions|
    requires NoDuplicates(st.products)
    ensures NoDuplicates(Run(st, actions).products)
  {
    if actions != [] {
      match actions[0] {
        case Type(t) =>
        case Add => AddKeepsNoDuplicates(st);
        case Remove(i) => RemoveKeepsNoDuplicates(st, i);
      }
      RunKeepsNoDuplicates(Step(st, actions[0]), actions[1..]);
    }
  }

  /** Starting from the empty component, the tag list never holds the same name twice. */
  lemma FromEmptyNoDuplicates(actions: seq<Action>)
    ensures NoDuplicates(Run(TagState("", []), actions).products)
  {
    RunKeepsNoDuplicates(TagState("", []), actions);
  }

  class TagInput {
    var text: string
    var products: seq<string>
    /** Every list handed to `onProductsChange`, oldest first. */
    var sent: seq<seq<string>>

    ghost predicate Valid()
      reads this
    {
      NoDuplicates(products)
    }

    function State(): TagState
      reads this
    {
      TagState(text, products)
    }

    constructor ()
      ensures Valid() && text == "" && products == [] && sent == []
    {
      text := "";
      products := [];
      sent := [];
    }

    /** `onChangeText={setText}`. */
    method SetText(typed: string)
      requires Valid()
      modifies this`text
      ensures Valid() && text == typed
    {
      text := typed;
    }

    /** `addProduct()`; the parent is told only when the list changes, and then receives the new list. */
    method AddProduct() returns (added: bool)
      requires Valid()
      modifies this`text, this`products, this`sent
      ensures Valid()
      ensures State() == AfterAdd(old(State()))
      ensures added <==> products != old(products)
      ensures sent == if added then old(sent) + [products] else old(sent)
    {
      var newProduct := Text.Trim(text);
      if newProduct != "" && newProduct !in products {
        var updatedProducts := products + [newProduct];
        products := updatedProducts;
        sent := sent + [updatedProducts];
        text := "";
        added := true;
      } else {
        added := false;
      }
      AddKeepsNoDuplicates(old(State()));
    }

    /** `removeProduct(index)`; the parent always receives the new list. */
    method RemoveProduct(index: int)
      requires Valid()
      modifies this`products, this`sent
      ensures Valid()
      ensures products == DropIndex(old(products), index)
      ensures sent == old(sent) + [products]
    {
      var updatedProducts := DropIndex(products, index);
      RemoveKeepsNoDuplicates(State(), index);
      products := updatedProducts;
      sent := sent + [updatedProducts];
    }
  }
}
