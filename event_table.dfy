/** The route-event row shared by the matcher's output, the direction corrector and the event-table analyses. */
module EventTable {
  import opened Py

  /** One row of an event table: XDSegID, RTE_NM, BEGIN_MSR, END_MSR. */
  datatype Event = Event(xdSegId: int, rteNm: Name, beginMsr: Msr, endMsr: Msr)
}
