/** The recent-transactions table of the dashboard
    (src/components/dashboard/RecentTransactions.tsx): the status badge and
    the pager buttons. */
module RecentTransactions {
  import opened Common

  /** `getStatusColor`: each of the three statuses has its own colour class;
      any other string gets none. */
  function StatusColor(status: string): (c: string)
    ensures status == "completed" <==> c == "text-green-600 bg-green-100 dark:bg-green-900/20"
    ensures status == "pending" <==> c == "text-yellow-600 bg-yellow-100 dark:bg-yellow-900/20"
    ensures status == "cancelled" <==> c == "text-red-600 bg-red-100 dark:bg-red-900/20"
    ensures c == "" <==> status != "completed" && status != "pending" && status != "cancelled"
  {
    if status == "completed" then "text-green-600 bg-green-100 dark:bg-green-900/20"
    else if status == "pending" then "text-yellow-600 bg-yellow-100 dark:bg-yellow-900/20"
    else if status == "cancelled" then "text-red-600 bg-red-100 dark:bg-red-900/20"
    else ""
  }

  /** The badge text: the three `status === … && label` pieces, of which at
      most one renders. */
  function StatusLabel(status: string): (text: string)
    ensures status == "completed" <==> text == "Selesai"
    ensures status == "pending" <==> text == "Menunggu"
    ensures status == "cancelled" <==> text == "Dibatalkan"
    ensures text == "" <==> status != "completed" && status != "pending" && status != "cancelled"
  {
    (if status == "completed" then "Selesai" else "")
    + (if status == "pending" then "Menunggu" else "")
    + (if status == "cancelled" then "Dibatalkan" else "")
  }

  /** A status has a label exactly when it has a colour. */
  lemma LabelledIffColoured(status: string)
    ensures StatusLabel(status) == "" <==> StatusColor(status) == ""
  {
  }

  /** The "previous" button: disabled on page 1, otherwise it asks for the
      page before. */
  function PreviousPage(currentPage: int): (request: Option<int>)
    ensures request.None? <==> currentPage == 1
    ensures request.Some? ==> request.value == currentPage - 1
  {
    if currentPage == 1 then None else Some(currentPage - 1)
  }

  /** The "next" button: disabled on the last page, otherwise it asks for
      the page after. */
  function NextPage(currentPage: int, totalPages: int): (request: Option<int>)
    ensures request.None? <==> currentPage == totalPages
    ensures request.Some? ==> request.value == currentPage + 1
  {
    if currentPage == totalPages then None else Some(currentPage + 1)
  }

  /** From a page between 1 and the last, either button asks only for a page
      in that range, and the two requests undo each other. */
  lemma PagerStaysInRange(currentPage: int, totalPages: int)
    requires 1 <= currentPage <= totalPages
    ensures PreviousPage(currentPage).Some? ==> 1 <= PreviousPage(currentPage).value <= totalPages
    ensures NextPage(currentPage, totalPages).Some? ==> 1 <= NextPage(currentPage, totalPages).value <= totalPages
    ensures PreviousPage(currentPage).Some? ==> NextPage(PreviousPage(currentPage).value, totalPages) == Some(currentPage)
    ensures NextPage(currentPage, totalPages).Some? ==> PreviousPage(NextPage(currentPage, totalPages).value) == Some(currentPage)
  {
  }

  /** With a single page both buttons are disabled. */
  lemma SinglePageDisablesBoth()
    ensures PreviousPage(1).None? && NextPage(1, 1).None?
  {
  }
}
