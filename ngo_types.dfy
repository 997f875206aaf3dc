/** The dashboard's data types (types.ts). */
module NgoTypes {
  import opened Common

  datatype WaterStatus = WaterUnknown | Available | Scarce | Contaminated | NoWater

  datatype PowerStatus = PowerUnknown | On | Intermittent | Off

  /** A neighbourhood as the dashboard reads it; the centroid, timestamps,
      wells, truck schedules and alerts are display-only and left out. */
  datatype Neighborhood = Neighborhood(
    id: string,
    name: string,
    waterStatus: WaterStatus,
    powerStatus: PowerStatus,
    daysNoWater: Option<int>)

  datatype ReportType =
    | WaterIssue | PowerIssue | NewInstallation | General
    | ComplaintWaterQuality | ComplaintNoWaterDelivery
    | ComplaintInfrastructureDamage | ComplaintOther

  datatype Urgency = Low | Medium | High | Critical

  /** A feed item. `isVerified` is the one field the operator changes. */
  datatype Report = Report(
    id: string,
    neighborhoodId: string,
    rtype: ReportType,
    timestamp: string,
    message: string,
    imageUrl: Option<string>,
    audioUrl: Option<string>,
    isVerified: bool,
    urgency: Option<Urgency>)
}
