/** The record shapes the detail sheets and the assessment list actually read.
    `src/lib/types.ts` declares none of the snake_case fields below; the
    components read them anyway, so each is a field that may be absent. */
module Records {
  import opened JsValues
  import opened Types

  /** The assessment shape of `AssessmentDetailSheet.tsx` and `AssessmentsList.tsx`.
      Only `explanationDate` is ever left out by the code that builds one. */
  datatype AssessmentRecord = AssessmentRecord(
    id: string,
    complaintId: string,
    assessmentStatus: string,
    assessNo: string,
    explanationTopic: string,
    sentTo: string,
    sentDate: string,
    sentBy: string,
    explanationDate: Option<string>)

  /** The complaint shape of `ComplaintDetailSheet.tsx`: the declared `id`,
      `tin`, `details` and `status`, and the undeclared case fields. */
  datatype ComplaintRecord = ComplaintRecord(
    id: string,
    tin: string,
    details: string,
    status: ComplaintStatus,
    complaintCode: Option<string>,
    caseStatus: Option<string>,
    appliedDate: Option<string>,
    caseType: Option<string>,
    taxpayerName: Option<string>,
    taxpayerPhone: Option<string>,
    complainantName: Option<string>,
    complainantPhone: Option<string>,
    complainantEmail: Option<string>,
    complaintTitle: Option<string>,
    category: Option<string>,
    categoryId: Option<string>,
    subcategory: Option<string>,
    subCategoryId: Option<string>,
    complaintsOn: Option<string>,
    taxCenter: Option<string>,
    referenceNumber: Option<string>,
    machineCode: Option<string>,
    assignedTo: Option<string>)

  /** The response shape of `ResponseDetailSheet.tsx`: the declared fields of
      `Response` and the undeclared workflow fields. */
  datatype ResponseRecord = ResponseRecord(
    id: string,
    complaintId: string,
    respondedBy: string,
    content: string,
    sentToUser: bool,
    createdAt: string,
    responseStatus: Option<string>,
    recipientName: Option<string>,
    recipientEmail: Option<string>,
    subject: Option<string>,
    notes: Option<string>,
    approvedBy: Option<string>,
    approvedDate: Option<string>,
    sentDate: Option<string>)
}
