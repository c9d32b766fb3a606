/** Link-layer addresses, as the 48-bit numbers they are compared as. */
module MacAddress {
  type Mac = nat
}
