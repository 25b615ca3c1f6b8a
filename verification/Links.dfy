/** A proxy link: one entry of a profile group. The fields parsed from its URI
    never change once the link exists; the others are updated in place. */
module Links {

  /** What a group file stores about a link, apart from the group name. The
      fields that no modelled code looks at are kept together in `rest`. */
  datatype LinkData = LinkData(
    remark: string,
    protocol: string,
    address: string,
    port: int,
    sni: string,
    host: string,
    flow: string,
    rest: string)

  class Link {
    const data: LinkData
    var group: string
    var chainProxy: string  // upstream SOCKS proxy of a chained hop, "" for none
    var listenPort: int     // local port of a chained hop, 0 for the default

    constructor (data: LinkData, group: string)
      ensures this.data == data && this.group == group
      ensures chainProxy == "" && listenPort == 0
    {
      this.data, this.group, chainProxy, listenPort := data, group, "", 0;
    }
  }
}
