/** The consignment station: enter the shipment header, link existing fibre packs by id,
    then hand header and links to the consignment service. */
module ConsignmentView {
  import opened Seqs
  import opened Strings
  import opened Types
  import Api

  /** The header form, as the raw text of its four fields. */
  datatype Details = Details(vendor: string, country: string, totalWeightKg: string, consignmentNumber: string)

  /** What `createConsignment` receives: the header with the weight converted to a number,
      and the linked fibre pack ids. */
  datatype Request = Request(vendor: string, country: string, totalWeightKg: real, consignmentNumber: string,
                             linkedFibrePackIds: seq<string>)

  /** `isStep1Valid`: every header field is filled in. */
  predicate IsStep1Valid(d: Details) {
    d.vendor != "" && d.country != "" && d.totalWeightKg != "" && d.consignmentNumber != ""
  }

  /** The ids of the fibre packs in the store, in store order. */
  function FibreIds(items: seq<TraceableItem>): (r: seq<string>)
    ensures forall i :: 0 <= i < |r| ==> exists j :: 0 <= j < |items| && items[j].Fibre? && items[j].Id() == r[i]
    ensures forall j :: 0 <= j < |items| && items[j].Fibre? ==> items[j].Id() in r
  {
    var f := Api.OfType(items, FIBRE);
    forall i | 0 <= i < |f| ensures exists j :: 0 <= j < |items| && items[j].Fibre? && items[j].Id() == f[i].Id() {
      var j :| 0 <= j < |items| && items[j] == f[i];
    }
    Ids(f)
  }

  /** The message shown when the consignment service fails. */
  function FailureMessage(error: string): string {
    if error == "" then "Failed to create consignment." else error
  }

  class Session {
    var step: int
    var error: string
    var vendors: seq<string>
    var countries: seq<string>
    var fibreIds: seq<string>
    var details: Details
    var linkedPacks: seq<string>
    var packInput: string
    var createdConsignment: Option<Consignment>

    /** A step of the flow; the links are distinct ids of fibre packs in the store. */
    predicate Valid()
      reads this
    {
      1 <= step <= 3 && NoDup(linkedPacks) && forall i :: 0 <= i < |linkedPacks| ==> linkedPacks[i] in fibreIds
    }

    /** The view after its fetch: option lists loaded, vendor and country pre-filled with the
        first option. */
    constructor (vendorData: seq<string>, countryData: seq<string>, items: seq<TraceableItem>)
      ensures Valid()
      ensures step == 1 && error == "" && vendors == vendorData && countries == countryData
      ensures fibreIds == FibreIds(items)
      ensures details == Details(FirstOr(vendorData), FirstOr(countryData), "", "")
      ensures linkedPacks == [] && packInput == "" && createdConsignment == None
    {
      step := 1;
      error := "";
      vendors := vendorData;
      countries := countryData;
      fibreIds := FibreIds(items);
      details := Details(FirstOr(vendorData), FirstOr(countryData), "", "");
      linkedPacks := [];
      packInput := "";
      createdConsignment := None;
    }

    /** Editing the header form. */
    method EnterDetails(d: Details)
      modifies this`details
      ensures details == d
    {
      details := d;
    }

    /** `handleDetailsSubmit`. */
    method DetailsSubmit()
      requires Valid()
      modifies this`error, this`step
      ensures Valid()
      ensures IsStep1Valid(details) ==> error == "" && step == 2
      ensures !IsStep1Valid(details) ==> error == "All fields are mandatory." && step == old(step)
    {
      if IsStep1Valid(details) {
        error := "";
        step := 2;
      } else {
        error := "All fields are mandatory.";
      }
    }

    /** "Back to Details". */
    method Back()
      requires Valid()
      modifies this`step
      ensures Valid()
      ensures step == if old(step) == 2 then 1 else old(step)
    {
      if step == 2 {
        step := 1;
      }
    }

    /** Typing into the pack-id field. */
    method EnterPackInput(text: string)
      modifies this`packInput
      ensures packInput == text
    {
      packInput := text;
    }

    /** `handleAddPack`: the error is cleared first, then the trimmed id is checked. */
    method AddPack()
      requires Valid()
      modifies this`error, this`linkedPacks, this`packInput
      ensures Valid()
      ensures var id := Trim(old(packInput));
        if id == "" then error == "" && linkedPacks == old(linkedPacks) && packInput == old(packInput)
        else if id !in fibreIds then
          error == "Fiber Pack ID \"" + id + "\" is not valid or does not exist." &&
          linkedPacks == old(linkedPacks) && packInput == old(packInput)
        else if id in old(linkedPacks) then
          error == "Fiber Pack ID \"" + id + "\" has already been linked." &&
          linkedPacks == old(linkedPacks) && packInput == old(packInput)
        else (error == "" && linkedPacks == old(linkedPacks) + [id] && packInput == "")
    {
      error := "";
      var id := Trim(packInput);
      if id == "" {
        return;
      }
      if id !in fibreIds {
        error := "Fiber Pack ID \"" + id + "\" is not valid or does not exist.";
        return;
      }
      if id in linkedPacks {
        error := "Fiber Pack ID \"" + id + "\" has already been linked.";
        return;
      }
      linkedPacks := linkedPacks + [id];
      packInput := "";
    }

    /** `handleRemovePack`. */
    method RemovePack(id: string)
      requires Valid()
      modifies this`linkedPacks
      ensures Valid()
      ensures linkedPacks == Without(old(linkedPacks), id)
    {
      SubseqNoDup(Without(linkedPacks, id), linkedPacks);
      linkedPacks := Without(linkedPacks, id);
    }

    /** `handleCreateConsignment`, with the consignment service as a parameter: refused
        without links; otherwise the header and the links are sent, and success moves to
        the summary. */
    method CreateConsignment(create: Request -> Result<Consignment>, parse: string -> real)
      requires Valid()
      modifies this`error, this`step, this`createdConsignment
      ensures Valid()
      ensures linkedPacks == [] ==>
        error == "You must link at least one Fiber Pack." && step == old(step) &&
        createdConsignment == old(createdConsignment)
      ensures linkedPacks != [] ==>
        var req := Request(details.vendor, details.country, parse(details.totalWeightKg),
                           details.consignmentNumber, linkedPacks);
        match create(req)
        case Ok(c) => error == "" && step == 3 && createdConsignment == Some(c)
        case Err(e) => error == FailureMessage(e) && step == old(step) && createdConsignment == old(createdConsignment)
    {
      if linkedPacks == [] {
        error := "You must link at least one Fiber Pack.";
        return;
      }
      error := "";
      var req := Request(details.vendor, details.country, parse(details.totalWeightKg),
                         details.consignmentNumber, linkedPacks);
      var res := create(req);
      if res.Ok? {
        createdConsignment := Some(res.value);
        step := 3;
      } else {
        error := FailureMessage(res.error);
      }
    }

    /** `resetFlow`: back to an empty header (vendor and country re-filled) and no links. */
    method ResetFlow()
      modifies this`step, this`error, this`details, this`linkedPacks, this`packInput, this`createdConsignment
      ensures Valid()
      ensures step == 1 && error == ""
      ensures details == Details(FirstOr(vendors), FirstOr(countries), "", "")
      ensures linkedPacks == [] && packInput == "" && createdConsignment == None
    {
      step := 1;
      error := "";
      details := Details(FirstOr(vendors), FirstOr(countries), "", "");
      linkedPacks := [];
      packInput := "";
      createdConsignment := None;
    }
  }
}
