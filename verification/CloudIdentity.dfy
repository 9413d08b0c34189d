/** The identity of a cloud account (dataprovider/providers/cloud/data_provider.go). */
module CloudIdentity {
  datatype Identity = Identity(account: string, alias: string, organizationId: string, organizationName: string)
}
