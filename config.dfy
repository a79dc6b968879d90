/** Device endpoint configuration (device/src/config.rs): TCP or serial, never both. */
module Config {
  import opened Common

  datatype Parity = Odd | Even | NoneParity

  datatype TcpConfig = TcpConfig(address: string, port: nat)

  datatype SerialConfig = SerialConfig(comPort: string, baudrate: u32, slave: u8, parity: Parity)

  datatype DeviceConfig = Tcp(tcp: TcpConfig) | Serial(serial: SerialConfig)

  /** `Default for DeviceConfig`: Modbus/TCP on the local host, port 502. */
  function DefaultDeviceConfig(): (c: DeviceConfig)
    ensures c.Tcp? && c.tcp.address == "127.0.0.1" && c.tcp.port == 502
  {
    Tcp(TcpConfig("127.0.0.1", 502))
  }
}
