/**
 * The loader: rows read from the sheet get three derived columns, `Title`, `Family Size`
 * and `Survival`, which are assigned one after the other to the loader's data frame.
 */
module Loader {
  import opened Wrappers
  import Titles

  /**
   * A row as read from the sheet. Sex, Pclass and Embarked are the columns the filter reads;
   * any of them may be missing.
   */
  datatype RawPassenger = RawPassenger(
    name: string,
    sex: Option<string>,
    pclass: Option<int>,
    sibSp: int,
    parch: int,
    embarked: Option<string>,
    survived: int)

  /** A row of the loaded frame: the raw row and its three derived cells. */
  datatype Passenger = Passenger(
    raw: RawPassenger,
    title: Option<string>,
    familySize: int,
    survival: Option<string>)

  /** The dictionary given to `Series.map` for the `Survival` column. */
  const SurvivalNames: map<int, string> := map[0 := "Did not Survive", 1 := "Survived"]

  /** The `Survival` label of a `Survived` value; a value the dictionary lacks maps to NaN. */
  function SurvivalLabel(survived: int): (tag: Option<string>)
    ensures tag == Some("Survived") <==> survived == 1
    ensures tag == Some("Did not Survive") <==> survived == 0
    ensures tag.None? <==> survived != 0 && survived != 1
  {
    if survived in SurvivalNames then Some(SurvivalNames[survived]) else None
  }

  /** `Family Size`: the passenger with siblings or spouses and parents or children aboard. */
  function FamilySize(r: RawPassenger): (size: int)
    ensures r.sibSp >= 0 && r.parch >= 0 ==> size >= 1
  {
    r.sibSp + r.parch + 1
  }

  /** The loaded row for a sheet row. */
  function Derive(r: RawPassenger): (p: Passenger)
    ensures p.raw == r
    ensures p.title.Some? ==> |p.title.value| > 0 && Titles.AllLetters(p.title.value)
    ensures r.sibSp >= 0 && r.parch >= 0 ==> p.familySize >= 1
    ensures p.survival.Some? <==> r.survived == 0 || r.survived == 1
  {
    Passenger(r, Titles.ExtractTitle(r.name), FamilySize(r), SurvivalLabel(r.survived))
  }

  /** The loaded table for the rows of a sheet. */
  function DeriveAll(sheet: seq<RawPassenger>): (rows: seq<Passenger>)
    ensures |rows| == |sheet|
    ensures forall i :: 0 <= i < |sheet| ==> rows[i].raw == sheet[i] && IsDerived(rows[i])
  {
    if sheet == [] then [] else [Derive(sheet[0])] + DeriveAll(sheet[1..])
  }

  /** The row's derived cells are those the loader computes from its raw cells. */
  predicate IsDerived(p: Passenger)
  {
    p == Derive(p.raw)
  }

  /** The derived columns a frame can hold. */
  datatype DerivedColumn = TitleColumn | FamilySizeColumn | SurvivalColumn

  const AllDerived: set<DerivedColumn> := {TitleColumn, FamilySizeColumn, SurvivalColumn}

  /** Rows assembled from the raw rows and the three derived columns, position by position. */
  function Zip(raw: seq<RawPassenger>, title: seq<Option<string>>, familySize: seq<int>,
               survival: seq<Option<string>>): (rows: seq<Passenger>)
    requires |title| == |familySize| == |survival| == |raw|
    ensures |rows| == |raw|
    ensures forall i :: 0 <= i < |raw| ==>
              rows[i] == Passenger(raw[i], title[i], familySize[i], survival[i])
  {
    if raw == [] then []
    else [Passenger(raw[0], title[0], familySize[0], survival[0])]
         + Zip(raw[1..], title[1..], familySize[1..], survival[1..])
  }

  /**
   * The loader's data frame: the columns read from the sheet never change, and each derived
   * column is a field that is filled in when the column is assigned.
   */
  class Frame {
    const raw: seq<RawPassenger>
    var columns: set<DerivedColumn>
    var title: seq<Option<string>>
    var familySize: seq<int>
    var survival: seq<Option<string>>

    /** Every derived column the frame holds has one cell per row. */
    ghost predicate Valid()
      reads this
    {
      && (TitleColumn in columns ==> |title| == |raw|)
      && (FamilySizeColumn in columns ==> |familySize| == |raw|)
      && (SurvivalColumn in columns ==> |survival| == |raw|)
    }

    /** The frame holds all three derived columns. */
    ghost predicate Complete()
      reads this
    {
      Valid() && columns == AllDerived
    }

    /** A frame holding what was read from the sheet and no derived column yet. */
    constructor (sheet: seq<RawPassenger>)
      ensures Valid()
      ensures raw == sheet && columns == {}
    {
      raw := sheet;
      columns := {};
      title, familySize, survival := [], [], [];
    }

    /** Assigns the `Title` column: the title extracted from each row's name. */
    method AddTitle()
      requires Valid()
      modifies this
      ensures Valid()
      ensures columns == old(columns) + {TitleColumn}
      ensures |title| == |raw|
      ensures forall i :: 0 <= i < |raw| ==> title[i] == Titles.ExtractTitle(raw[i].name)
      ensures familySize == old(familySize) && survival == old(survival)
    {
      var rows := raw;
      title := seq(|rows|, i requires 0 <= i < |rows| => Titles.ExtractTitle(rows[i].name));
      columns := columns + {TitleColumn};
    }

    /** Assigns the `Family Size` column from each row's sibling and parent counts. */
    method AddFamilySize()
      requires Valid()
      modifies this
      ensures Valid()
      ensures columns == old(columns) + {FamilySizeColumn}
      ensures |familySize| == |raw|
      ensures forall i :: 0 <= i < |raw| ==> familySize[i] == raw[i].sibSp + raw[i].parch + 1
      ensures title == old(title) && survival == old(survival)
    {
      var rows := raw;
      familySize := seq(|rows|, i requires 0 <= i < |rows| => FamilySize(rows[i]));
      columns := columns + {FamilySizeColumn};
    }

    /** Assigns the `Survival` column: each row's `Survived` value looked up in `SurvivalNames`. */
    method AddSurvival()
      requires Valid()
      modifies this
      ensures Valid()
      ensures columns == old(columns) + {SurvivalColumn}
      ensures |survival| == |raw|
      ensures forall i :: 0 <= i < |raw| ==> survival[i] == SurvivalLabel(raw[i].survived)
      ensures title == old(title) && familySize == old(familySize)
    {
      var rows := raw;
      survival := seq(|rows|, i requires 0 <= i < |rows| => SurvivalLabel(rows[i].survived));
      columns := columns + {SurvivalColumn};
    }

    /** The frame's rows, once it holds every derived column. */
    function Rows(): (rows: seq<Passenger>)
      reads this
      requires Complete()
      ensures |rows| == |raw|
    {
      Zip(raw, title, familySize, survival)
    }
  }

  /**
   * `get_data_from_excel`, given the rows of the sheet: every row of the returned frame is
   * the raw row with its title, family size and survival label derived from it.
   */
  method GetDataFromExcel(sheet: seq<RawPassenger>) returns (df: Frame)
    ensures fresh(df)
    ensures df.Complete() && df.raw == sheet
    ensures df.Rows() == DeriveAll(sheet)
    ensures forall i :: 0 <= i < |sheet| ==> df.Rows()[i].familySize == sheet[i].sibSp + sheet[i].parch + 1
  {
    df := new Frame(sheet);
    df.AddTitle();
    df.AddFamilySize();
    df.AddSurvival();
  }
}
