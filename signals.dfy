/** A signal an item sends out through one of its connections:
    `item.SendSignal(value, connectionName)`. */
module ItemSignals {
  datatype Signal = Signal(value: string, connection: string)
}
