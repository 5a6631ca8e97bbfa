/**
 * The `Item` record of the lost-and-found catalog: a mutable reference object
 * with ten fields, its initializer with its default arguments, and the four
 * fixture items of `dummyData()`.
 */
module Items {
  import opened Wrappers

  /** A point in time, in whole seconds. */
  type Date = int

  /** The text of a `UUID`; fresh identifiers are supplied by the caller. */
  type Uuid = string

  const SecondsPerDay := 86400

  /** The image name `init` records when none is passed. */
  const DefaultImageName := "salemalekum"

  /** The ten fields of an `Item`, as one value. */
  datatype ItemValue = ItemValue(
    id: Uuid,
    dateFound: Date,
    dateClaimed: Option<Date>,
    itemName: string,
    itemDescription: string,
    isClaimed: bool,
    imageName: string,
    category: string,
    locationFound: string,
    claimer: Option<string>)
  {
    /** The claim coupling: isClaimed exactly when a claimer and a claim date are recorded. */
    predicate ClaimCoupled() {
      (isClaimed <==> claimer.Some?) && (isClaimed <==> dateClaimed.Some?)
    }

    /** `this` and `other` agree on the seven fields that are not part of a claim. */
    predicate SameRecord(other: ItemValue) {
      id == other.id && dateFound == other.dateFound &&
      itemName == other.itemName && itemDescription == other.itemDescription &&
      imageName == other.imageName && category == other.category &&
      locationFound == other.locationFound
    }
  }

  class Item {
    var id: Uuid
    var dateFound: Date
    var dateClaimed: Option<Date>
    var itemName: string
    var itemDescription: string
    var isClaimed: bool
    var imageName: string
    var category: string
    var locationFound: string
    var claimer: Option<string>

    function Value(): ItemValue
      reads this
    {
      ItemValue(id, dateFound, dateClaimed, itemName, itemDescription,
                isClaimed, imageName, category, locationFound, claimer)
    }

    predicate ClaimCoupled()
      reads this
    {
      Value().ClaimCoupled()
    }

    /** `init`: every argument is stored in its field; the defaults make an unclaimed item. */
    constructor (id: Uuid, dateFound: Date, dateClaimed: Option<Date> := None,
                 itemName: string, itemDescription: string, isClaimed: bool := false,
                 imageName: string := DefaultImageName, category: string,
                 locationFound: string, claimer: Option<string> := None)
      ensures Value() == ItemValue(id, dateFound, dateClaimed, itemName, itemDescription,
                                   isClaimed, imageName, category, locationFound, claimer)
    {
      this.id := id;
      this.dateFound := dateFound;
      this.dateClaimed := dateClaimed;
      this.itemName := itemName;
      this.itemDescription := itemDescription;
      this.isClaimed := isClaimed;
      this.imageName := imageName;
      this.category := category;
      this.locationFound := locationFound;
      this.claimer := claimer;
    }
  }

  /**
   * An `Item(...)` call that passes only the required arguments: the
   * defaulted ones give an unclaimed item that satisfies the coupling and
   * records the default image name.
   */
  method CreateWithDefaults(id: Uuid, dateFound: Date, itemName: string, itemDescription: string,
                            category: string, locationFound: string) returns (item: Item)
    ensures !item.isClaimed && item.claimer == None && item.dateClaimed == None
    ensures item.imageName == DefaultImageName
    ensures item.ClaimCoupled()
    ensures item.id == id && item.dateFound == dateFound && item.itemName == itemName &&
            item.itemDescription == itemDescription && item.category == category &&
            item.locationFound == locationFound
  {
    item := new Item(id, dateFound, itemName := itemName, itemDescription := itemDescription,
                     category := category, locationFound := locationFound);
  }

  /**
   * The field values of the four `dummyData()` fixtures, with `now` the
   * current time and `ids` the four generated identifiers.
   */
  function DummyValues(now: Date, ids: seq<Uuid>): (r: seq<ItemValue>)
    requires |ids| == 4
    ensures |r| == 4
    ensures r[0].itemName == "Wallet" && r[1].itemName == "Backpack" &&
            r[2].itemName == "Umbrella" && r[3].itemName == "Smartphone"
    ensures forall i :: 0 <= i < |r| ==> r[i].id == ids[i] && r[i].ClaimCoupled() && r[i].dateFound < now
    ensures forall i :: 0 <= i < |r| && r[i].isClaimed ==>
              r[i].dateClaimed.Some? && r[i].dateFound < r[i].dateClaimed.value < now
    ensures !r[0].isClaimed && r[1].claimer == Some("John Doe") &&
            !r[2].isClaimed && r[3].claimer == Some("Jane Smith")
  {
    [ ItemValue(ids[0], now - SecondsPerDay * 2, None, "Wallet",
                "A black leather wallet with some cash and cards inside.", false,
                "wallet.png", "Accessories", "Library", None),
      ItemValue(ids[1], now - SecondsPerDay * 5, Some(now - SecondsPerDay * 1), "Backpack",
                "A blue backpack containing books and a laptop charger.", true,
                "backpack.png", "Bags", "Cafeteria", Some("John Doe")),
      ItemValue(ids[2], now - SecondsPerDay * 10, None, "Umbrella",
                "A red umbrella with a curved wooden handle.", false,
                "umbrella.png", "Miscellaneous", "Bus Stop", None),
      ItemValue(ids[3], now - SecondsPerDay * 7, Some(now - SecondsPerDay * 3), "Smartphone",
                "A white iPhone 12 with a cracked screen protector.", true,
                "smartphone.png", "Electronics", "Gym", Some("Jane Smith")) ]
  }

  /** `dummyData()`: four new `Item` objects holding the fixture values, in order. */
  method DummyData(now: Date, ids: seq<Uuid>) returns (items: seq<Item>)
    requires |ids| == 4
    ensures |items| == 4
    ensures forall i :: 0 <= i < |items| ==> fresh(items[i])
    ensures forall i, j :: 0 <= i < j < |items| ==> items[i] != items[j]
    ensures forall i :: 0 <= i < |items| ==> items[i].Value() == DummyValues(now, ids)[i]
  {
    var v := DummyValues(now, ids);
    var wallet := new Item(v[0].id, v[0].dateFound, v[0].dateClaimed, v[0].itemName, v[0].itemDescription,
                           v[0].isClaimed, v[0].imageName, v[0].category, v[0].locationFound, v[0].claimer);
    var backpack := new Item(v[1].id, v[1].dateFound, v[1].dateClaimed, v[1].itemName, v[1].itemDescription,
                             v[1].isClaimed, v[1].imageName, v[1].category, v[1].locationFound, v[1].claimer);
    var umbrella := new Item(v[2].id, v[2].dateFound, v[2].dateClaimed, v[2].itemName, v[2].itemDescription,
                             v[2].isClaimed, v[2].imageName, v[2].category, v[2].locationFound, v[2].claimer);
    var phone := new Item(v[3].id, v[3].dateFound, v[3].dateClaimed, v[3].itemName, v[3].itemDescription,
                          v[3].isClaimed, v[3].imageName, v[3].category, v[3].locationFound, v[3].claimer);
    items := [wallet, backpack, umbrella, phone];
  }
}
