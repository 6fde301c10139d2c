/** The status badge (src/components/onboarding/document-status.tsx): a fixed
    table from a document's status string to the badge's text, variant, icon
    and colour classes. */
module DocumentStatus {
  import opened Wrappers

  datatype Variant = Secondary | Destructive | Outline

  datatype BadgeIcon = Clock | Eye | CheckCircle | AlertCircle

  /** `label`, `variant`, `icon` (none for `null`) and `className`. */
  datatype StatusConfig = StatusConfig(caption: string, variant: Variant, icon: Option<BadgeIcon>, className: string)

  /** The statuses the table names; every other string falls to the default row. */
  const KnownStatuses: seq<string> := ["pending", "in_review", "complete", "action_required"]

  /** `getStatusConfig()`. */
  function ConfigFor(status: string): StatusConfig {
    match status
    case "pending" => StatusConfig("Pending", Secondary, Some(Clock), "bg-yellow-100 text-yellow-800 border-yellow-200")
    case "in_review" => StatusConfig("In Review", Secondary, Some(Eye), "bg-blue-100 text-blue-800 border-blue-200")
    case "complete" => StatusConfig("Complete", Secondary, Some(CheckCircle), "bg-green-100 text-green-800 border-green-200")
    case "action_required" => StatusConfig("Action Required", Destructive, Some(AlertCircle), "bg-red-100 text-red-800 border-red-200")
    case _ => StatusConfig("Not Uploaded", Outline, None, "bg-gray-100 text-gray-600 border-gray-200")
  }

  /** Only "action_required" gets the destructive variant. */
  lemma DestructiveOnlyForActionRequired(status: string)
    ensures ConfigFor(status).variant == Destructive <==> status == "action_required"
    ensures status == "action_required" ==> ConfigFor(status).caption == "Action Required"
  {
  }

  /** A status outside the table, "not_uploaded" among them, gets the
      outline "Not Uploaded" badge with no icon; a listed status gets a
      secondary or destructive badge with an icon. */
  lemma UnknownStatusIsNotUploaded(status: string)
    ensures ConfigFor(status).variant == Outline <==> status !in KnownStatuses
    ensures ConfigFor(status).icon.None? <==> status !in KnownStatuses
    ensures status !in KnownStatuses ==> ConfigFor(status).caption == "Not Uploaded"
  {
  }

  /** The secondary rows: "pending" with the clock, "in_review" and "complete". */
  lemma SecondaryRows(status: string)
    ensures ConfigFor(status).variant == Secondary <==> status in ["pending", "in_review", "complete"]
    ensures status == "pending" ==> ConfigFor(status).caption == "Pending" && ConfigFor(status).icon == Some(Clock)
    ensures status == "in_review" ==> ConfigFor(status).caption == "In Review"
    ensures status == "complete" ==> ConfigFor(status).caption == "Complete"
  {
  }

  /** No two rows share an icon, so the icon alone tells the status apart
      among the listed ones. */
  lemma IconsIdentifyStatus(s: string, t: string)
    requires s in KnownStatuses && t in KnownStatuses
    requires ConfigFor(s).icon == ConfigFor(t).icon
    ensures s == t
  {
    assert s == KnownStatuses[0] || s == KnownStatuses[1] || s == KnownStatuses[2] || s == KnownStatuses[3];
    assert t == KnownStatuses[0] || t == KnownStatuses[1] || t == KnownStatuses[2] || t == KnownStatuses[3];
  }
}
