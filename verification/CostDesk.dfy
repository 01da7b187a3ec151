/** The command desk of the costing service: receipts in front of the tables it protects. */
module CostDesk {
  import opened Wrappers
  import opened Inventory
  import opened CanonicalJson
  import opened CostCommands
  import Uuids
  import InventoryService

  class OperationDesk {
    const service: InventoryService.Service
    const le: Collation<FieldName>
    var receipts: map<string, OperationReceipt>

    ghost function Contents(): Desk
      reads this, service
    {
      Desk(service.Tables(), receipts)
    }

    constructor (service: InventoryService.Service, le: Collation<FieldName>)
      ensures this.service == service && this.le == le && receipts == map[]
    {
      this.service, this.le, receipts := service, le, map[];
    }

    /** The work behind each action, done by the service. */
    method Perform(cmd: Command, actor: string) returns (r: Result<InventoryService.Delivered, InventoryError>)
      requires Costed(cmd)
      modifies service
      ensures service.Tables() == InventoryService.After(old(service.Tables()), Inventory.Perform(old(service.Tables()), cmd, actor))
      ensures r == InventoryService.Told(Inventory.Perform(old(service.Tables()), cmd, actor))
    {
      match cmd
      case CmdReceive(input) => r := service.Receive(input, actor);
      case CmdAdjust(itemId, delta, nota) => r := service.Adjust(itemId, delta, nota, actor);
      case CmdOpen(itemId, input) => r := service.Opening(itemId, input, actor);
      case CmdRevise(input) => r := service.Revise(input, actor);
      case CmdReturn(input) => r := service.ReturnFromOrder(input, actor);
    }

    /** Look the key up, do the work once, and keep the receipt with the tables. */
    method Command(subject: string, key: string, payload: Payload, cmd: Command) returns (r: Result<Reply, DeskError>)
      requires Costed(cmd)
      modifies this, service
      ensures Answer(Contents(), r) == Submit(le, old(Contents()), subject, key, payload, cmd)
    {
      var failed := Precheck(cmd);
      if failed.Some? {
        return Err(Refused(failed.value));
      }
      if !Uuids.IsUuid(key, "4") {
        return Err(InvalidKey);
      }
      var identity := Identity(subject, key);
      var hash := Canon(le, payload);
      if identity in receipts {
        return if receipts[identity].hash != hash then Err(KeyReused) else Ok(receipts[identity].reply);
      }
      var done := Perform(cmd, subject);
      if done.Err? {
        return Err(Refused(done.error));
      }
      var reply := ReplyTo(cmd, Posted(service.Tables(), done.value.crossings, done.value.operation));
      receipts := receipts[identity := OperationReceipt(hash, reply)];
      return Ok(reply);
    }
  }
}
