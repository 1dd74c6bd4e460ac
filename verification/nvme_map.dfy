/** Where the pages of a batch of sectors lie on the NVMe controllers. */
module NvmeMap {
  import opened RingMath

  /** nvme_node_indexes */
  method NodeIndexes(controllers: nat, node: nat, nodesPerPage: nat) returns (ctrlId: nat, block: nat)
    requires controllers > 0 && nodesPerPage > 0
    ensures (ctrlId, block) == Place(controllers, Div(node, nodesPerPage))
    ensures controllers * block + ctrlId == node / nodesPerPage && ctrlId < controllers
  {
    SlotIsMod(node, nodesPerPage);
    var page: nat := node / nodesPerPage;
    SlotIsMod(page, controllers);
    hide Slot, Div;
    block := page / controllers;
    assert controllers * block == block * controllers;
    ctrlId := page - block * controllers;
  }

  /** A page's controller and its block there. */
  function Place(controllers: nat, page: nat): (nat, nat)
    requires controllers > 0
  {
    (Slot(page, controllers), Div(page, controllers))
  }

  /** get_slot_size: blocks that one batch of sectors takes on each controller. */
  function SlotSize(pagesPerLayer: nat, controllers: nat, layers: nat): nat
    requires controllers > 0
  {
    Div(pagesPerLayer + controllers - 1, controllers) * layers
  }

  /** The slot is no larger than it has to be: layer by layer the least number of blocks that holds the
    * layer's pages on all controllers.
    */
  lemma SlotIsLeast(pagesPerLayer: nat, controllers: nat, layers: nat, each: nat)
    requires controllers > 0
    ensures
      SlotSize(pagesPerLayer, controllers, layers) == layers * each
      <== controllers * each >= pagesPerLayer && (each == 0 || controllers * (each - 1) < pagesPerLayer)
  {
    var x := pagesPerLayer + controllers - 1;
    SlotIsMod(x, controllers);
    var d := Div(x, controllers);
    hide Slot, Div;
    if controllers * each >= pagesPerLayer && (each == 0 || controllers * (each - 1) < pagesPerLayer) {
      MulGap(controllers, d, each);
      if each > 0 { Distribute(controllers, each - 1); }
      assert d == each;
    }
  }

  /** Every page of a batch is within the batch's blocks, on a controller that exists. */
  lemma WithinSlot(pagesPerLayer: nat, controllers: nat, layers: nat, page: nat)
    requires controllers > 0 && page < layers * pagesPerLayer
    ensures
      var (ctrl, block) := Place(controllers, page);
      ctrl < controllers && block < SlotSize(pagesPerLayer, controllers, layers)
  {
    var each := Div(pagesPerLayer + controllers - 1, controllers);
    SlotIsMod(pagesPerLayer + controllers - 1, controllers);
    SlotIsMod(page, controllers);
    hide Slot, Div;
    RoundUp(pagesPerLayer, controllers, each, layers);
    MulGap(controllers, Div(page, controllers), each * layers);
  }

  lemma RoundUp(pages: nat, c: nat, each: nat, layers: nat)
    requires c * each >= pages
    ensures layers * pages <= c * (each * layers)
  {
    MulGap(layers, pages, c * each);
    assert layers * (c * each) == c * (each * layers);
  }

  /** Two pages share a place only if they are one. */
  lemma {:induction false} PlacesDiffer(controllers: nat, p: nat, q: nat)
    requires controllers > 0 && Place(controllers, p) == Place(controllers, q)
    ensures p == q
  {
    SlotIsMod(p, controllers);
    SlotIsMod(q, controllers);
  }

  /** Main result: two pages of two batches, stored at multiples of the slot size, are at one place only
    * if both the batches and the pages are the same.
    */
  lemma BatchesApart(pagesPerLayer: nat, controllers: nat, layers: nat, a: nat, p: nat, b: nat, q: nat)
    requires controllers > 0 && p < layers * pagesPerLayer && q < layers * pagesPerLayer
    requires
      var size := SlotSize(pagesPerLayer, controllers, layers);
      && Place(controllers, p).0 == Place(controllers, q).0
      && Place(controllers, p).1 + a * size == Place(controllers, q).1 + b * size
    ensures a == b && p == q
  {
    var size := SlotSize(pagesPerLayer, controllers, layers);
    WithinSlot(pagesPerLayer, controllers, layers, p);
    WithinSlot(pagesPerLayer, controllers, layers, q);
    hide Slot, Div, SlotSize;
    assert a * size == size * a && b * size == size * b;
    MulGap(size, a, b);
    PlacesDiffer(controllers, p, q);
  }
}
