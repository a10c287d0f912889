/**
 * One record of the accrual sheet, as the resolution steps see it. The
 * consignor (origin) and consignee (destination) sides carry the same
 * columns, so each side is a `Party`.
 */
module Accrual {
  import opened Wrappers

  /**
   * One side of a shipment: its name and address columns (NA already read
   * as ""), the cell of its org/dest type-code column (None for NA), and the
   * columns the pipeline derives for it.
   */
  datatype Party = Party(
    name: string,              // Consignor / Consignee
    address: string,           // Origin / Destination Address
    city: string,              // Origin / Destination City
    state: string,             // Origin / Destination State
    typeCell: Option<string>,  // the cell of the Org / Dest type-code column
    combined: Option<string>,  // <side>_Combined_Address
    extracted: string,         // Extracted <side> Code
    typeCode: string,          // Org Type Consignor Code / Dest Type Consignee Code
    addrLookup: string,        // Addr_Lookup_<side>_Code
    finalCode: string,         // Final <side> Code
    finalType: string          // Final <side> Type
  )

  /** A record of the accrual sheet. */
  datatype Row = Row(
    consignor: Party,
    consignee: Party,
    carrierName: Option<string>,   // Carrier Name when it is text, else None
    profitCenter: Option<string>,  // the input Profit Center, None when NA or absent
    responsibleParty: string,
    profitCenterEJ: string,
    costCenterEJ: string,
    accountEJ: string,
    automationAccuracy: int
  )
}
