/** Badge colours and display fallbacks that several pages share. */
module Display {
  import opened Common

  const Red := "bg-red-500"
  const Yellow := "bg-yellow-500"
  const Green := "bg-green-500"
  const Blue := "bg-blue-500"
  const Gray := "bg-gray-500"

  /** The badge for an issue's priority: High, Medium and Low each have a colour, anything else is gray. */
  function PriorityColor(priority: string): (r: string)
    ensures r == Red <==> priority == "High"
    ensures r == Yellow <==> priority == "Medium"
    ensures r == Green <==> priority == "Low"
    ensures r == Gray <==> priority != "High" && priority != "Medium" && priority != "Low"
  {
    match priority
    case "High" => Red
    case "Medium" => Yellow
    case "Low" => Green
    case _ => Gray
  }

  /** The badge for an issue's or a program's status; Inactive and unknown statuses share gray. */
  function StatusColor(status: string): (r: string)
    ensures r == Green <==> status == "Active"
    ensures r == Yellow <==> status == "Pending"
    ensures r == Blue <==> status == "Completed"
    ensures r == Gray <==> status != "Active" && status != "Pending" && status != "Completed"
  {
    match status
    case "Active" => Green
    case "Pending" => Yellow
    case "Completed" => Blue
    case "Inactive" => Gray
    case _ => Gray
  }

  /** `category || "Uncategorized"`: the shown category is never empty and is the stored one when there is one. */
  function CategoryLabel(category: string): (r: string)
    ensures r != ""
    ensures category != "" ==> r == category
    ensures category == "" ==> r == "Uncategorized"
  {
    if category == "" then "Uncategorized" else category
  }

  /** `xs?.length || 0`: the number shown for a list that may be absent. */
  function CountOrZero<T>(xs: Option<seq<T>>): (r: nat)
    ensures xs.None? ==> r == 0
    ensures xs.Some? ==> r == |xs.value|
  {
    if xs.Some? then |xs.value| else 0
  }
}
