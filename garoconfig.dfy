/**
 * The wallbox configuration record: custom_components/garo_wallbox/garo/garoconfig.py.
 * It is built once from a configuration document and never changed.
 */
module Config {
  import opened Wrappers
  import opened Json
  import opened Const
  import Utils

  /**
   * The configuration record. The product is looked up in the constant
   * catalogue from the product id, so it is a member of the record rather
   * than a stored field.
   */
  datatype GaroConfig = GaroConfig(
    maxChargeCurrent: Value,
    productId: int,
    serialNumber: Value,
    firmwareVersion: Value,
    firmwareRevision: Value,
    factoryChargeLimit: Value,
    switchChargeLimit: Value,
    softwareVersion: Value,
    packageVersion: Value,
    twinSerial: Value,
    standalone: bool)
  {
    /** `product`: the catalogue entry of the product id, or "Unknown". */
    function Product(): ProductInfo {
      LookupProduct(productId)
    }
  }

  /** The catalogue entry of a product id, or a product named "Unknown" with no features. */
  function LookupProduct(id: int): (p: ProductInfo)
    ensures id in ProductMap ==> p == ProductMap[id]
    ensures id !in ProductMap ==> p.name == "Unknown" && !p.hasMeter && !p.is3Phase && !p.hasOutlet
  {
    if id in ProductMap then ProductMap[id] else ProductInfo("Unknown")
  }

  /**
   * `GaroConfig(json)`: each field read with its default; `productId` goes
   * through `int()` (which raises for text that is not an integer and for
   * null, lists and objects), and `standalone` through `bool()`.
   */
  function FromJson(json: Doc): (r: Result<GaroConfig, Error>)
    ensures r.Err? <==> "productId" in json && ToInt(json["productId"], "productId").Err?
    ensures r.Err? ==> r.error == ToInt(json["productId"], "productId").error
  {
    match ToInt(Utils.ReadValue(json, "productId", Str("0")), "productId")
    case Err(e) => Err(e)
    case Ok(id) =>
      Ok(GaroConfig(
        Utils.ReadValue(json, "maxChargeCurrent", Int(0)),
        id,
        Utils.ReadValue(json, "serialNumber", Int(0)),
        Utils.ReadValue(json, "firmwareVersion", Int(0)),
        Utils.ReadValue(json, "firmwareRevision", Int(0)),
        Utils.ReadValue(json, "factoryChargeLimit", Int(0)),
        Utils.ReadValue(json, "switchChargeLimit", Int(0)),
        Utils.ReadValue(json, "softwareVersion", Int(0)),
        Utils.ReadValue(json, "packageVersion", Str("0")),
        Utils.ReadValue(json, "twinSerial", Int(0)),
        Truthy(Utils.ReadValue(json, "standalone", Str("false")))))
  }

  /** A document without the keys gives the defaults: 0 everywhere, package version "0", product 0 (unknown), standalone. */
  lemma EmptyConfigDefaults()
    ensures FromJson(map[]).Ok?
    ensures var c := FromJson(map[]).value;
      && c.maxChargeCurrent == Int(0) && c.serialNumber == Int(0)
      && c.firmwareVersion == Int(0) && c.firmwareRevision == Int(0)
      && c.factoryChargeLimit == Int(0) && c.switchChargeLimit == Int(0) && c.softwareVersion == Int(0)
      && c.packageVersion == Str("0") && c.twinSerial == Int(0)
      && c.productId == 0 && c.Product() == ProductInfo("Unknown")
      && c.standalone
  {
    EmptyConfig();
    UnknownProductZero();
  }

  /** The record an empty document builds. */
  lemma EmptyConfig()
    ensures FromJson(map[]) == Ok(GaroConfig(Int(0), 0, Int(0), Int(0), Int(0), Int(0), Int(0), Int(0), Str("0"), Int(0), true))
  {
    DefaultProductId();
    assert Truthy(Str("false"));
  }

  /** The default `'0'` reads as product 0. */
  lemma DefaultProductId()
    ensures ToInt(Str("0"), "productId") == Ok(0)
  {
    assert Decimal.IntToString(0) == "0";
    ToIntOfPrintedInt(0, "productId");
  }

  /** Product 0 is not in the catalogue. */
  lemma UnknownProductZero()
    ensures LookupProduct(0) == ProductInfo("Unknown")
  {
    ProductMapKeys(0);
  }

  /** Every key present is stored as sent; every key absent gives its default. */
  lemma ConfigReadsEveryKey(json: Doc)
    requires FromJson(json).Ok?
    ensures var c := FromJson(json).value;
      && c.maxChargeCurrent == (if "maxChargeCurrent" in json then json["maxChargeCurrent"] else Int(0))
      && c.serialNumber == (if "serialNumber" in json then json["serialNumber"] else Int(0))
      && c.firmwareVersion == (if "firmwareVersion" in json then json["firmwareVersion"] else Int(0))
      && c.firmwareRevision == (if "firmwareRevision" in json then json["firmwareRevision"] else Int(0))
      && c.factoryChargeLimit == (if "factoryChargeLimit" in json then json["factoryChargeLimit"] else Int(0))
      && c.switchChargeLimit == (if "switchChargeLimit" in json then json["switchChargeLimit"] else Int(0))
      && c.softwareVersion == (if "softwareVersion" in json then json["softwareVersion"] else Int(0))
      && c.packageVersion == (if "packageVersion" in json then json["packageVersion"] else Str("0"))
      && c.twinSerial == (if "twinSerial" in json then json["twinSerial"] else Int(0))
  {
  }

  /** The product id is the integer `int()` makes of `productId`, or 0 when the key is absent. */
  lemma ConfigProductId(json: Doc)
    requires FromJson(json).Ok?
    ensures "productId" in json ==> ToInt(json["productId"], "productId") == Ok(FromJson(json).value.productId)
    ensures "productId" !in json ==> FromJson(json).value.productId == 0
  {
    DefaultProductId();
  }

  /** The product is the catalogue entry of the product id; ids outside 1..122, 220 and 221 give "Unknown". */
  lemma ConfigProduct(c: GaroConfig)
    ensures c.productId in ProductMap <==> 1 <= c.productId <= 122 || c.productId == 220 || c.productId == 221
    ensures c.productId in ProductMap ==> c.Product() == ProductMap[c.productId]
    ensures c.productId !in ProductMap ==> c.Product().name == "Unknown" && !c.Product().hasMeter
  {
    ProductMapKeys(c.productId);
  }

  /**
   * `standalone` is the truth value of the stored value: absent means the text
   * "false", which is true; a JSON false, 0 or "" is false.
   */
  lemma ConfigStandalone(json: Doc)
    requires FromJson(json).Ok?
    ensures var c := FromJson(json).value;
      && ("standalone" !in json ==> c.standalone)
      && ("standalone" in json && json["standalone"] == Bool(false) ==> !c.standalone)
      && ("standalone" in json && json["standalone"] == Str("false") ==> c.standalone)
      && ("standalone" in json ==> (c.standalone <==> Truthy(json["standalone"])))
  {
  }

  /** An integer product id in the document is kept, and `productId` as its decimal text reads the same. */
  lemma ProductIdAsTextOrNumber(json: Doc, id: int)
    ensures FromJson(json["productId" := Int(id)]).Ok?
    ensures FromJson(json["productId" := Str(Decimal.IntToString(id))]).Ok?
    ensures FromJson(json["productId" := Int(id)]).value.productId == id
    ensures FromJson(json["productId" := Str(Decimal.IntToString(id))]).value.productId == id
  {
    ToIntOfPrintedInt(id, "productId");
  }
}
