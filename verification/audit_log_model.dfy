/** The `AuditLog` table: an entry is written once and never updated, so it
    carries a creation time and no update time. */
module AuditLogModel {
  import opened Common

  /** One audit row. The tenant and the acting user may be null; `action`
      is never null; the entity id is kept as a string column. */
  datatype AuditEntry = AuditEntry(
    tenantId: Option<Id>,
    userId: Option<Id>,
    action: string,
    entityType: string,
    entityId: string,
    ipAddress: Option<string>,
    createdAt: nat)
}
