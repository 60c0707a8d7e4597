/** The vendor's product management page: the product grid with one image
    slider per card, deletion, the edit form with its image previews, and
    the product view with its own slider. */
module VendorProducts {
  import opened Common

  /** A JavaScript value held in a product field. */
  datatype JsValue = JsString(s: string) | JsNumber(n: int) | JsNull

  /** JavaScript truthiness; a missing field reads as `undefined`. */
  predicate Truthy(v: Option<JsValue>)
  {
    match v
    case None => false
    case Some(JsString(s)) => s != ""
    case Some(JsNumber(n)) => n != 0
    case Some(JsNull) => false
  }

  /** A product as the page holds it: its id, its other fields by name, and
      its image list, which may be absent. The element type is abstracted to
      a string: the page holds stored images as objects it reads through
      `.image` and the files `handleImages` adds as data-URL strings, and
      nothing modelled here looks inside either. */
  datatype Product = Product(id: int, fields: map<string, JsValue>, images: Option<seq<string>>)

  /** `p.images || []`. */
  function ImagesOf(p: Product): (r: seq<string>)
    ensures p.images.Some? ==> r == p.images.value
    ensures p.images.None? ==> r == []
  {
    if p.images.Some? then p.images.value else []
  }

  /** The slide count a card's arrows wrap at: `p.images?.length || 1`. */
  function SlideCount(p: Product): (n: int)
    ensures n >= 1
    ensures |ImagesOf(p)| > 0 ==> n == |ImagesOf(p)|
    ensures |ImagesOf(p)| == 0 ==> n == 1
  {
    if p.images.Some? && |p.images.value| > 0 then |p.images.value| else 1
  }

  /** `s.filter((_, i) => i !== k)`: every element except the one at
      position `k`, in order. */
  function DropIndex<T>(s: seq<T>, k: int): (r: seq<T>)
    ensures 0 <= k < |s| ==> r == s[..k] + s[k + 1..]
    ensures !(0 <= k < |s|) ==> r == s
    decreases |s|
  {
    if s == [] then []
    else
      var rest := DropIndex(s[1..], k - 1);
      if k == 0 then
        assert rest == s[1..];
        rest
      else
        assert 0 < k < |s| ==> s[1..][..k - 1] + s[1..][k..] == s[1..k] + s[k + 1..];
        [s[0]] + rest
  }

  /** Every card's slider index is set and points at one of the card's
      slides. */
  predicate SliderInRange(products: seq<Product>, slider: map<int, int>)
  {
    forall i :: 0 <= i < |products| ==> i in slider && 0 <= slider[i] < SlideCount(products[i])
  }

  /** The slider map after the card at `index` is removed, keeping each
      remaining card's index with the card: keys below `index` stay, keys
      above move down by one. */
  function ShiftSlider(slider: map<int, int>, index: int): (r: map<int, int>)
    ensures forall k :: k < index ==> (k in r <==> k in slider) && (k in r ==> r[k] == slider[k])
    ensures forall k {:trigger k in r} :: k >= index ==> (k in r <==> k + 1 in slider) && (k in r ==> r[k] == slider[k + 1])
  {
    var low := set k | k in slider && k < index;
    var high := set k | k in slider && k > index :: k - 1;
    var r := map k | k in low + high :: if k < index then slider[k] else slider[k + 1];
    assert forall k :: k >= index && k + 1 in slider ==> k in high by {
      forall k | k >= index && k + 1 in slider
        ensures k in high
      {
        assert k == (k + 1) - 1;
      }
    }
    r
  }

  /** Removing a card and shifting the slider map with it keeps every
      remaining card's slider on one of its own slides. */
  lemma ShiftedSliderStaysInRange(products: seq<Product>, slider: map<int, int>, index: int)
    requires SliderInRange(products, slider) && 0 <= index < |products|
    ensures SliderInRange(DropIndex(products, index), ShiftSlider(slider, index))
  {
    var ps := DropIndex(products, index);
    var r := ShiftSlider(slider, index);
    forall i | 0 <= i < |ps|
      ensures i in r && 0 <= r[i] < SlideCount(ps[i])
    {
      if i < index {
        assert ps[i] == products[i];
      } else {
        assert ps[i] == products[i + 1];
      }
    }
  }

  /** The slider map as written: deleting a card keeps the map unchanged, so
      the card that moves into the deleted position inherits that
      position's index. With three cards of 1, 3 and 1 images showing
      slides 0, 2 and 0, deleting the first leaves the last card at
      position 1 with index 2, past its only image. */
  lemma UnshiftedSliderLeavesRange()
    ensures var products := [Product(1, map[], Some(["x"])),
                             Product(2, map[], Some(["a", "b", "c"])),
                             Product(3, map[], Some(["z"]))];
            var slider := map[0 := 0, 1 := 2, 2 := 0];
            SliderInRange(products, slider)
            && !SliderInRange(DropIndex(products, 0), slider)
  {
    var products := [Product(1, map[], Some(["x"])),
                     Product(2, map[], Some(["a", "b", "c"])),
                     Product(3, map[], Some(["z"]))];
    var slider := map[0 := 0, 1 := 2, 2 := 0];
    var after := DropIndex(products, 0);
    assert after[1] == products[2];
    assert SlideCount(after[1]) == 1;
  }

  /** The `stock` field, or None when the product has none. */
  function StockOf(p: Product): Option<JsValue>
  {
    if "stock" in p.fields then Some(p.fields["stock"]) else None
  }

  /** The body `saveEdit` sends: the edited product, with `quantity` set to
      `stock` when `stock` is truthy. */
  function UpdateBody(p: Product): (r: Product)
    ensures r.id == p.id && r.images == p.images
    ensures forall k :: k != "quantity" ==> (k in r.fields <==> k in p.fields) && (k in r.fields ==> r.fields[k] == p.fields[k])
    ensures Truthy(StockOf(p)) ==> "quantity" in r.fields && r.fields["quantity"] == p.fields["stock"]
    ensures !Truthy(StockOf(p)) ==> r == p
  {
    if Truthy(StockOf(p)) then p.(fields := p.fields["quantity" := p.fields["stock"]]) else p
  }

  /** Sending the body a second time changes nothing more. */
  lemma UpdateBodyIdempotent(p: Product)
    ensures UpdateBody(UpdateBody(p)) == UpdateBody(p)
  {
  }

  class ProductListPage {
    var products: seq<Product>
    /** Each card's current slide, by card position. */
    var sliderIndex: map<int, int>
    var editingIndex: Option<int>
    /** The product being edited; None stands for the initial `{}`, which
        the edit form never shows. */
    var editedProduct: Option<Product>
    var previews: seq<string>
    var viewIndex: Option<int>
    var viewSliderIndex: int
    var loading: bool
    /** The delete and update requests sent, in order. */
    var deleted: seq<int>
    var updates: seq<Product>

    /** The edit form shows one preview per image of the edited product,
        and every card's slider points at one of its slides. */
    predicate Valid()
      reads this
    {
      (editingIndex.Some? ==> editedProduct.Some?)
      && (editedProduct.Some? ==> |ImagesOf(editedProduct.value)| == |previews|)
      && SliderInRange(products, sliderIndex)
    }

    constructor ()
      ensures Valid()
      ensures products == [] && sliderIndex == map[] && editingIndex.None? && editedProduct.None?
      ensures previews == [] && viewIndex.None? && viewSliderIndex == 0 && loading
      ensures deleted == [] && updates == []
    {
      products := [];
      sliderIndex := map[];
      editingIndex := None;
      editedProduct := None;
      previews := [];
      viewIndex := None;
      viewSliderIndex := 0;
      loading := true;
      deleted := [];
      updates := [];
    }

    /** The loop in `loadProducts` that sets every position's slide to 0. */
    static method InitialSliderIndex(n: nat) returns (slider: map<int, int>)
      ensures forall i :: i in slider <==> 0 <= i < n
      ensures forall i :: i in slider ==> slider[i] == 0
    {
      slider := map[];
      var i := 0;
      while i < n
        invariant 0 <= i <= n
        invariant forall k :: k in slider <==> 0 <= k < i
        invariant forall k :: k in slider ==> slider[k] == 0
      {
        slider := slider[i := 0];
        i := i + 1;
      }
    }

    /** `loadProducts`: on success the list is replaced and every slider
        starts at slide 0; a failed request keeps both. */
    method LoadProducts(response: Option<seq<Product>>)
      requires Valid()
      modifies this
      ensures Valid()
      ensures products == if response.Some? then response.value else old(products)
      ensures response.Some? ==> forall i :: i in sliderIndex <==> 0 <= i < |products|
      ensures response.Some? ==> forall i :: i in sliderIndex ==> sliderIndex[i] == 0
      ensures response.None? ==> sliderIndex == old(sliderIndex)
      ensures !loading
      ensures editingIndex == old(editingIndex) && editedProduct == old(editedProduct)
      ensures previews == old(previews) && viewIndex == old(viewIndex)
      ensures viewSliderIndex == old(viewSliderIndex)
      ensures deleted == old(deleted) && updates == old(updates)
    {
      loading := true;
      if response.Some? {
        products := response.value;
        sliderIndex := InitialSliderIndex(|products|);
      }
      loading := false;
    }

    /** `deleteProduct` as written: after the confirm and a successful
        server delete the card is spliced out, but the slider map is left
        as it was (see `UnshiftedSliderLeavesRange`). */
    method DeleteProductAsWritten(index: int, confirmed: bool, serverOk: bool)
      requires 0 <= index < |products|
      modifies this
      ensures deleted == if confirmed then old(deleted) + [old(products)[index].id] else old(deleted)
      ensures products == if confirmed && serverOk then DropIndex(old(products), index) else old(products)
      ensures sliderIndex == old(sliderIndex)
      ensures editingIndex == old(editingIndex) && editedProduct == old(editedProduct)
      ensures previews == old(previews) && viewIndex == old(viewIndex)
      ensures viewSliderIndex == old(viewSliderIndex) && loading == old(loading)
      ensures updates == old(updates)
    {
      if !confirmed {
        return;
      }
      deleted := deleted + [products[index].id];
      if serverOk {
        products := DropIndex(products, index);
      }
    }

    /** `deleteProduct` with the slider map shifted along with the cards:
        exactly the card at `index` goes, the others keep their order and
        their slides, and a cancelled confirm or a failed delete changes
        nothing on the page. */
    method DeleteProduct(index: int, confirmed: bool, serverOk: bool)
      requires Valid() && 0 <= index < |products|
      modifies this
      ensures Valid()
      ensures deleted == if confirmed then old(deleted) + [old(products)[index].id] else old(deleted)
      ensures products == if confirmed && serverOk then old(products)[..index] + old(products)[index + 1..] else old(products)
      ensures sliderIndex == if confirmed && serverOk then ShiftSlider(old(sliderIndex), index) else old(sliderIndex)
      ensures editingIndex == old(editingIndex) && editedProduct == old(editedProduct)
      ensures previews == old(previews) && viewIndex == old(viewIndex)
      ensures viewSliderIndex == old(viewSliderIndex) && loading == old(loading)
      ensures updates == old(updates)
    {
      if !confirmed {
        return;
      }
      deleted := deleted + [products[index].id];
      if serverOk {
        ShiftedSliderStaysInRange(products, sliderIndex, index);
        sliderIndex := ShiftSlider(sliderIndex, index);
        products := DropIndex(products, index);
      }
    }

    /** `startEdit`: open the form on a copy of the product and its images. */
    method StartEdit(index: int)
      requires Valid() && 0 <= index < |products|
      modifies this
      ensures Valid()
      ensures editingIndex == Some(index) && editedProduct == Some(old(products)[index])
      ensures previews == ImagesOf(old(products)[index])
      ensures products == old(products) && sliderIndex == old(sliderIndex)
      ensures viewIndex == old(viewIndex) && viewSliderIndex == old(viewSliderIndex)
      ensures loading == old(loading) && deleted == old(deleted) && updates == old(updates)
    {
      editingIndex := Some(index);
      editedProduct := Some(products[index]);
      previews := ImagesOf(products[index]);
    }

    /** `handleEditChange` on one of the form's text fields: only that field
        changes. */
    method HandleEditChange(name: string, value: string)
      requires Valid() && editingIndex.Some?
      modifies this
      ensures Valid() && editedProduct.Some?
      ensures var p := old(editedProduct).value;
              editedProduct.value == p.(fields := p.fields[name := JsString(value)])
      ensures editingIndex == old(editingIndex) && previews == old(previews)
      ensures products == old(products) && sliderIndex == old(sliderIndex)
      ensures viewIndex == old(viewIndex) && viewSliderIndex == old(viewSliderIndex)
      ensures loading == old(loading) && deleted == old(deleted) && updates == old(updates)
    {
      var p := editedProduct.value;
      editedProduct := Some(p.(fields := p.fields[name := JsString(value)]));
    }

    /** `handleImages`: the chosen files, read as data URLs, are appended to
        the product's images and to the previews alike. */
    method HandleImages(images: seq<string>)
      requires Valid() && editingIndex.Some?
      modifies this
      ensures Valid() && editedProduct.Some?
      ensures ImagesOf(editedProduct.value) == ImagesOf(old(editedProduct).value) + images
      ensures previews == old(previews) + images
      ensures editedProduct.value.id == old(editedProduct).value.id
      ensures editedProduct.value.fields == old(editedProduct).value.fields
      ensures editingIndex == old(editingIndex)
      ensures products == old(products) && sliderIndex == old(sliderIndex)
      ensures viewIndex == old(viewIndex) && viewSliderIndex == old(viewSliderIndex)
      ensures loading == old(loading) && deleted == old(deleted) && updates == old(updates)
    {
      var p := editedProduct.value;
      editedProduct := Some(p.(images := Some(ImagesOf(p) + images)));
      previews := previews + images;
    }

    /** `removeImage`, from the remove button of preview `index`: the same
        position goes from the images and from the previews. The images are
        present whenever a preview is, so the filter never meets an absent
        list. */
    method RemoveImage(index: int)
      requires Valid() && editingIndex.Some? && 0 <= index < |previews|
      modifies this
      ensures Valid() && editedProduct.Some?
      ensures old(editedProduct).value.images.Some?
      ensures editedProduct.value.images == Some(DropIndex(old(editedProduct).value.images.value, index))
      ensures previews == old(previews)[..index] + old(previews)[index + 1..]
      ensures editedProduct.value.id == old(editedProduct).value.id
      ensures editedProduct.value.fields == old(editedProduct).value.fields
      ensures editingIndex == old(editingIndex)
      ensures products == old(products) && sliderIndex == old(sliderIndex)
      ensures viewIndex == old(viewIndex) && viewSliderIndex == old(viewSliderIndex)
      ensures loading == old(loading) && deleted == old(deleted) && updates == old(updates)
    {
      var p := editedProduct.value;
      editedProduct := Some(p.(images := Some(DropIndex(p.images.value, index))));
      previews := DropIndex(previews, index);
    }

    /** `saveEdit`: send `UpdateBody` of the edited product; on success
        reload the list (from `reload`) and close the form, on failure keep
        the form open. */
    method SaveEdit(serverOk: bool, reload: Option<seq<Product>>)
      requires Valid() && editingIndex.Some?
      modifies this
      ensures Valid()
      ensures updates == old(updates) + [UpdateBody(old(editedProduct).value)]
      ensures editingIndex == if serverOk then None else old(editingIndex)
      ensures products == if serverOk && reload.Some? then reload.value else old(products)
      ensures serverOk && reload.Some? ==> forall i :: i in sliderIndex <==> 0 <= i < |products|
      ensures serverOk && reload.Some? ==> forall i :: i in sliderIndex ==> sliderIndex[i] == 0
      ensures !(serverOk && reload.Some?) ==> sliderIndex == old(sliderIndex)
      ensures editedProduct == old(editedProduct) && previews == old(previews)
      ensures viewIndex == old(viewIndex) && viewSliderIndex == old(viewSliderIndex)
      ensures !loading && deleted == old(deleted)
    {
      loading := true;
      updates := updates + [UpdateBody(editedProduct.value)];
      if serverOk {
        LoadProducts(reload);
        editingIndex := None;
      }
      loading := false;
    }

    /** `nextSlide` and `prevSlide` on card `i`: the card's slide moves by
        one and wraps at its slide count; no other card changes. */
    method NextSlide(i: int)
      requires Valid() && 0 <= i < |products|
      modifies this
      ensures Valid()
      ensures sliderIndex == old(sliderIndex)[i := RotateNext(old(sliderIndex)[i], SlideCount(old(products)[i]))]
      ensures products == old(products) && editingIndex == old(editingIndex)
      ensures editedProduct == old(editedProduct) && previews == old(previews)
      ensures viewIndex == old(viewIndex) && viewSliderIndex == old(viewSliderIndex)
      ensures loading == old(loading) && deleted == old(deleted) && updates == old(updates)
    {
      RotationInverse(sliderIndex[i], SlideCount(products[i]));
      sliderIndex := sliderIndex[i := RotateNext(sliderIndex[i], SlideCount(products[i]))];
    }

    method PrevSlide(i: int)
      requires Valid() && 0 <= i < |products|
      modifies this
      ensures Valid()
      ensures sliderIndex == old(sliderIndex)[i := RotatePrev(old(sliderIndex)[i], SlideCount(old(products)[i]))]
      ensures products == old(products) && editingIndex == old(editingIndex)
      ensures editedProduct == old(editedProduct) && previews == old(previews)
      ensures viewIndex == old(viewIndex) && viewSliderIndex == old(viewSliderIndex)
      ensures loading == old(loading) && deleted == old(deleted) && updates == old(updates)
    {
      RotationInverse(sliderIndex[i], SlideCount(products[i]));
      sliderIndex := sliderIndex[i := RotatePrev(sliderIndex[i], SlideCount(products[i]))];
    }

    /** The view button of card `i`: show the product from its first image. */
    method OpenView(i: int)
      requires 0 <= i < |products|
      modifies this
      ensures viewIndex == Some(i) && viewSliderIndex == 0
      ensures products == old(products) && sliderIndex == old(sliderIndex)
      ensures editingIndex == old(editingIndex) && editedProduct == old(editedProduct)
      ensures previews == old(previews) && loading == old(loading)
      ensures deleted == old(deleted) && updates == old(updates)
    {
      viewIndex := Some(i);
      viewSliderIndex := 0;
    }

    /** The view's arrows are shown only for a product with more than one
        image. */
    predicate ViewArrowsShown()
      reads this
    {
      viewIndex.Some? && 0 <= viewIndex.value < |products|
      && products[viewIndex.value].images.Some? && |products[viewIndex.value].images.value| > 1
    }

    /** `nextViewSlide` and `prevViewSlide`, reached from those arrows: the
        view's slide moves by one and stays among the product's images. */
    method NextViewSlide()
      requires ViewArrowsShown()
      requires 0 <= viewSliderIndex < |products[viewIndex.value].images.value|
      modifies this
      ensures var n := |old(products[viewIndex.value].images.value)|;
              viewSliderIndex == RotateNext(old(viewSliderIndex), n) && 0 <= viewSliderIndex < n
      ensures viewIndex == old(viewIndex) && products == old(products)
      ensures sliderIndex == old(sliderIndex) && editingIndex == old(editingIndex)
      ensures editedProduct == old(editedProduct) && previews == old(previews)
      ensures loading == old(loading) && deleted == old(deleted) && updates == old(updates)
    {
      var n := |products[viewIndex.value].images.value|;
      RotationInverse(viewSliderIndex, n);
      viewSliderIndex := RotateNext(viewSliderIndex, n);
    }

    method PrevViewSlide()
      requires ViewArrowsShown()
      requires 0 <= viewSliderIndex < |products[viewIndex.value].images.value|
      modifies this
      ensures var n := |old(products[viewIndex.value].images.value)|;
              viewSliderIndex == RotatePrev(old(viewSliderIndex), n) && 0 <= viewSliderIndex < n
      ensures viewIndex == old(viewIndex) && products == old(products)
      ensures sliderIndex == old(sliderIndex) && editingIndex == old(editingIndex)
      ensures editedProduct == old(editedProduct) && previews == old(previews)
      ensures loading == old(loading) && deleted == old(deleted) && updates == old(updates)
    {
      var n := |products[viewIndex.value].images.value|;
      RotationInverse(viewSliderIndex, n);
      viewSliderIndex := RotatePrev(viewSliderIndex, n);
    }
  }
}
