/**
 * The fixed display tables of the ticket page: the Arabic label of a
 * status, and the Arabic label and badge CSS classes of a priority.
 * Each is an object literal looked up with `table[key] || fallback`.
 */
module Labels {

  const StatusTexts: map<string, string> := map[
    "pending" := "قيد الانتظار",
    "in-progress" := "قيد المعالجة",
    "resolved" := "تم الحل",
    "closed" := "مغلقة"
  ]

  const PriorityTexts: map<string, string> := map[
    "low" := "منخفضة",
    "medium" := "متوسطة",
    "high" := "عالية",
    "urgent" := "عاجلة"
  ]

  const PriorityClasses: map<string, string> := map[
    "low" := "bg-gray-100 text-gray-800",
    "medium" := "bg-yellow-100 text-yellow-800",
    "high" := "bg-orange-100 text-orange-800",
    "urgent" := "bg-red-100 text-red-800"
  ]

  /** `getStatusText`: the table entry, or the pending label for any other status. */
  function StatusText(status: string): (text: string)
    ensures text in StatusTexts.Values
    ensures status in StatusTexts ==> text == StatusTexts[status]
    ensures status !in StatusTexts ==> text == StatusTexts["pending"]
  {
    if status in StatusTexts then StatusTexts[status]
    else assert StatusTexts["pending"] == "قيد الانتظار"; "قيد الانتظار"
  }

  /** `getPriorityText`: the table entry, or the low-priority label otherwise. */
  function PriorityText(priority: string): (text: string)
    ensures text in PriorityTexts.Values
    ensures priority in PriorityTexts ==> text == PriorityTexts[priority]
    ensures priority !in PriorityTexts ==> text == PriorityTexts["low"]
  {
    if priority in PriorityTexts then PriorityTexts[priority]
    else assert PriorityTexts["low"] == "منخفضة"; "منخفضة"
  }

  /** `getPriorityClass`: the table entry, or the low-priority classes otherwise. */
  function PriorityClass(priority: string): (classes: string)
    ensures classes in PriorityClasses.Values
    ensures priority in PriorityClasses ==> classes == PriorityClasses[priority]
    ensures priority !in PriorityClasses ==> classes == PriorityClasses["low"]
  {
    if priority in PriorityClasses then PriorityClasses[priority] else PriorityClasses["low"]
  }

  /**
   * The status table entry by entry: the four known statuses get four
   * different labels, and every other value reads as pending.
   */
  lemma StatusTextTable(status: string)
    ensures StatusText("pending") == "قيد الانتظار"
    ensures StatusText("in-progress") == "قيد المعالجة"
    ensures StatusText("resolved") == "تم الحل"
    ensures StatusText("closed") == "مغلقة"
    ensures status !in {"pending", "in-progress", "resolved", "closed"} ==>
              StatusText(status) == StatusText("pending")
    ensures forall s, t :: s in StatusTexts && t in StatusTexts && s != t ==> StatusText(s) != StatusText(t)
  {
  }

  /** The priority tables entry by entry, with the `low` fallback. */
  lemma PriorityTables(priority: string)
    ensures PriorityText("low") == "منخفضة" && PriorityClass("low") == "bg-gray-100 text-gray-800"
    ensures PriorityText("medium") == "متوسطة" && PriorityClass("medium") == "bg-yellow-100 text-yellow-800"
    ensures PriorityText("high") == "عالية" && PriorityClass("high") == "bg-orange-100 text-orange-800"
    ensures PriorityText("urgent") == "عاجلة" && PriorityClass("urgent") == "bg-red-100 text-red-800"
    ensures priority !in {"low", "medium", "high", "urgent"} ==>
              PriorityText(priority) == PriorityText("low") && PriorityClass(priority) == PriorityClass("low")
  {
  }
}
