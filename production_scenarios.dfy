/**
 * The scenarios of `ProductionServiceTest`, evaluated on the specification. Quantities are in
 * thousandths and money in hundredths, so `100.000` is `100000` and `100.00` is `10000`.
 */
module ProductionScenarios {
  import opened Wrappers
  import opened ProductEntity
  import opened ProductionService

  /** One product needing 10 of a 100-unit material and 5 of a 50-unit one: 10 units, 1000.00. */
  lemma SingleProductLimitedByBothMaterials()
    ensures Calculation(
              [Product(Some(10), "P001", "Product 1", 10000)],
              map[10 := [Requirement(1, 10000), Requirement(2, 5000)]],
              [StockRow(1, 100000), StockRow(2, 50000)])
            == ProductionCalculation([ProductionItem(Some(10), "P001", "Product 1", 10000, 10000, 100000)], 100000)
  {
    var p1 := Product(Some(10), "P001", "Product 1", 10000);
    assert FindAllOrdered([p1]) == [p1];
    assert [p1][..0] == [];
    TwoRowSnapshot(100000, 50000);
    BothMaterialsStep();
  }

  /** Two products competing for one material: the dearer one takes all of it. */
  lemma HigherValueProductServedFirst()
    ensures Calculation(
              [Product(Some(10), "P001", "Expensive Product", 50000), Product(Some(11), "P002", "Cheap Product", 5000)],
              map[10 := [Requirement(1, 10000)], 11 := [Requirement(1, 10000)]],
              [StockRow(1, 100000)])
            == ProductionCalculation([ProductionItem(Some(10), "P001", "Expensive Product", 50000, 10000, 500000)], 500000)
  {
    var p1 := Product(Some(10), "P001", "Expensive Product", 50000);
    var p2 := Product(Some(11), "P002", "Cheap Product", 5000);
    var reqs := map[10 := [Requirement(1, 10000)], 11 := [Requirement(1, 10000)]];
    var rows := [StockRow(1, 100000)];
    OrderedAsGiven(p1, p2);
    RunTwo(p1, p2, reqs, Start(rows));
    assert rows[..0] == [];
    assert Start(rows) == Progress([], 0, map[1 := 100000000]);
    ExpensiveFirstStep();
    CheapSecondStep();
  }

  /** Two products on disjoint materials: both are made, 15 and 10 units, 4000.00 in all. */
  lemma IndependentProductsBothServed()
    ensures Calculation(
              [Product(Some(10), "P001", "Product 1", 20000), Product(Some(11), "P002", "Product 2", 10000)],
              map[10 := [Requirement(1, 10000)], 11 := [Requirement(2, 10000)]],
              [StockRow(1, 150000), StockRow(2, 100000)])
            == ProductionCalculation(
                 [ProductionItem(Some(10), "P001", "Product 1", 20000, 15000, 300000),
                  ProductionItem(Some(11), "P002", "Product 2", 10000, 10000, 100000)],
                 400000)
  {
    var p1 := Product(Some(10), "P001", "Product 1", 20000);
    var p2 := Product(Some(11), "P002", "Product 2", 10000);
    var reqs := map[10 := [Requirement(1, 10000)], 11 := [Requirement(2, 10000)]];
    var rows := [StockRow(1, 150000), StockRow(2, 100000)];
    OrderedAsGiven(p1, p2);
    RunTwo(p1, p2, reqs, Start(rows));
    TwoRowSnapshot(150000, 100000);
    IndependentFirstStep();
    IndependentSecondStep();
  }

  /** No stock: an empty plan worth zero. */
  lemma NoStockNoPlan()
    ensures Calculation(
              [Product(Some(10), "P001", "Product 1", 10000)],
              map[10 := [Requirement(1, 10000)]],
              [StockRow(1, 0)])
            == ProductionCalculation([], 0)
  {
  }

  lemma BothMaterialsStep()
    ensures Step(Progress([], 0, map[1 := 100000000, 2 := 50000000]), Product(Some(10), "P001", "Product 1", 10000),
                 map[10 := [Requirement(1, 10000), Requirement(2, 5000)]])
            == Progress([ProductionItem(Some(10), "P001", "Product 1", 10000, 10000, 100000)], 100000, map[1 := 0, 2 := 0])
  {
    var rs := [Requirement(1, 10000), Requirement(2, 5000)];
    var stock := map[1 := 100000000, 2 := 50000000];
    assert PossibleQuantity(stock, rs[0]) == 10000;
    assert PossibleQuantity(stock, rs[1]) == 10000;
    assert MaxQuantity(rs, stock) == 10000;
    assert rs[..1] == [Requirement(1, 10000)];
    assert Deduct(rs[..1], 10000, stock) == map[1 := 0, 2 := 50000000];
  }

  lemma ExpensiveFirstStep()
    ensures Step(Progress([], 0, map[1 := 100000000]), Product(Some(10), "P001", "Expensive Product", 50000),
                 map[10 := [Requirement(1, 10000)], 11 := [Requirement(1, 10000)]])
            == Progress([ProductionItem(Some(10), "P001", "Expensive Product", 50000, 10000, 500000)], 500000, map[1 := 0])
  {
  }

  lemma CheapSecondStep()
    ensures Step(Progress([ProductionItem(Some(10), "P001", "Expensive Product", 50000, 10000, 500000)], 500000, map[1 := 0]),
                 Product(Some(11), "P002", "Cheap Product", 5000),
                 map[10 := [Requirement(1, 10000)], 11 := [Requirement(1, 10000)]])
            == Progress([ProductionItem(Some(10), "P001", "Expensive Product", 50000, 10000, 500000)], 500000, map[1 := 0])
  {
  }

  lemma IndependentFirstStep()
    ensures Step(Progress([], 0, map[1 := 150000000, 2 := 100000000]), Product(Some(10), "P001", "Product 1", 20000),
                 map[10 := [Requirement(1, 10000)], 11 := [Requirement(2, 10000)]])
            == Progress([ProductionItem(Some(10), "P001", "Product 1", 20000, 15000, 300000)], 300000,
                        map[1 := 0, 2 := 100000000])
  {
  }

  lemma IndependentSecondStep()
    ensures Step(Progress([ProductionItem(Some(10), "P001", "Product 1", 20000, 15000, 300000)], 300000,
                          map[1 := 0, 2 := 100000000]),
                 Product(Some(11), "P002", "Product 2", 10000),
                 map[10 := [Requirement(1, 10000)], 11 := [Requirement(2, 10000)]])
            == Progress([ProductionItem(Some(10), "P001", "Product 1", 20000, 15000, 300000),
                         ProductionItem(Some(11), "P002", "Product 2", 10000, 10000, 100000)], 400000,
                        map[1 := 0, 2 := 0])
  {
  }

  lemma TwoRowSnapshot(a: int, b: int)
    ensures Snapshot([StockRow(1, a), StockRow(2, b)]) == map[1 := a * 1000, 2 := b * 1000]
  {
    assert [StockRow(1, a), StockRow(2, b)][..1] == [StockRow(1, a)];
    assert [StockRow(1, a)][..0] == [];
    assert Snapshot([StockRow(1, a)]) == map[1 := a * 1000];
  }

  lemma RunTwo(p1: Product, p2: Product, reqs: Requirements, st: Progress)
    ensures Run([p1, p2], reqs, st) == Step(Step(st, p1, reqs), p2, reqs)
  {
    assert [p1, p2][..1] == [p1];
    assert [p1][..0] == [];
    assert Run([], reqs, st) == st;
    assert Run([p1], reqs, st) == Step(st, p1, reqs);
  }

  /** `findAllOrdered` keeps two products whose values are already descending. */
  lemma OrderedAsGiven(p1: Product, p2: Product)
    requires p1.value > p2.value
    ensures FindAllOrdered([p1, p2]) == [p1, p2]
  {
    var r := FindAllOrdered([p1, p2]);
    assert multiset(r) == multiset{p1, p2};
    assert |r| == 2;
    assert r[0] in multiset(r) && r[1] in multiset(r);
  }
}
