/** The record and the output bundle the alert engine works on
    (FrameworkAgreement.java and MailContent.java). */
module Model {
  import opened Options

  /** An instant as `java.util.Date.getTime()` gives it: milliseconds since the epoch. */
  type Instant = int

  /** The responsible department whose records the report covers. */
  const TARGET_DEPARTMENT: string := "运营业务开发科"

  /** The progress labels the engine recognises, in lifecycle order. */
  const DATA_PREP: string := "资料整理中"
  const APPROVAL_STAGE: string := "发起事财权阶段"
  const PURCHASE_STAGE: string := "合同采购阶段"
  const SEAL_STAGE: string := "合同用印阶段"
  const COMPLETED: string := "已完成"

  /** One agreement row. The fields that only the spreadsheet reader sets are constants here;
      the two derived fields are variables, of which the analyzer writes `alertLevel` in place. */
  class FrameworkAgreement {
    const id: Option<int>
    const systemName: string
    const responsibleDepartment: string
    const previousAgreementExpiry: Option<Instant>
    const plannedApprovalDate: Option<Instant>
    const responsiblePerson: string
    const currentProgress: Option<string>
    var referenceDate: Option<Instant>
    var alertLevel: Option<int>

    constructor (id: Option<int>, systemName: string, responsibleDepartment: string,
                 previousAgreementExpiry: Option<Instant>, plannedApprovalDate: Option<Instant>,
                 responsiblePerson: string, currentProgress: Option<string>)
      ensures this.id == id && this.systemName == systemName
      ensures this.responsibleDepartment == responsibleDepartment
      ensures this.previousAgreementExpiry == previousAgreementExpiry
      ensures this.plannedApprovalDate == plannedApprovalDate
      ensures this.responsiblePerson == responsiblePerson
      ensures this.currentProgress == currentProgress
      ensures referenceDate == None && alertLevel == None
    {
      this.id := id;
      this.systemName := systemName;
      this.responsibleDepartment := responsibleDepartment;
      this.previousAgreementExpiry := previousAgreementExpiry;
      this.plannedApprovalDate := plannedApprovalDate;
      this.responsiblePerson := responsiblePerson;
      this.currentProgress := currentProgress;
      referenceDate := None;
      alertLevel := None;
    }
  }

  /** What the analyzer hands to the renderers: a subject line, four reminder name lists
      and the records of the table, in display order. */
  datatype MailContent = MailContent(
    subject: string,
    needDataAlert: seq<string>,
    needApprovalAlert: seq<string>,
    needPurchaseAlert: seq<string>,
    needSealAlert: seq<string>,
    tableData: seq<FrameworkAgreement>)
}
